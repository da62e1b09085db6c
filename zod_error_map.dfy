/**
  `zodToErrorMap`: folds zod's issue list into a record keyed by the
  dot-joined path of each issue, or `_global` for an issue without a path.
  One message is kept per key: a later issue overwrites an earlier one.
*/
module ZodErrorMap {

  import opened Js
  import opened AuthSchemas

  /** The key of the error record that is not attached to a field. */
  const Global := "_global"

  /** The key an issue is filed under. */
  function KeyOf(issue: Issue): string {
    if |issue.path| > 0 then JoinStrings(issue.path, ".") else Global
  }

  /** The record after folding `issues` from first to last. */
  function IssuesToMap(issues: seq<Issue>): map<string, string> {
    if issues == [] then map[]
    else
      var last := issues[|issues| - 1];
      IssuesToMap(issues[..|issues| - 1])[KeyOf(last) := last.message]
  }

  /** The loop of `zodToErrorMap`, filling `out` one issue at a time. */
  method ZodToErrorMap(issues: seq<Issue>) returns (out: map<string, string>)
    ensures out == IssuesToMap(issues)
    ensures issues == [] ==> out == map[]
  {
    out := map[];
    for i := 0 to |issues|
      invariant out == IssuesToMap(issues[..i])
    {
      var e := issues[i];
      var path := if |e.path| > 0 then JoinStrings(e.path, ".") else Global;
      assert issues[..i + 1][..i] == issues[..i];
      out := out[path := e.message];
    }
    assert issues[..|issues|] == issues;
  }

  /** The keys are exactly the keys of the issues: joined paths, and `_global` when some path is empty. */
  lemma {:induction false} IssuesToMapKeys(issues: seq<Issue>, k: string)
    ensures k in IssuesToMap(issues) <==> exists i :: 0 <= i < |issues| && KeyOf(issues[i]) == k
  {
    if issues != [] {
      var init := issues[..|issues| - 1];
      IssuesToMapKeys(init, k);
      if k in IssuesToMap(init) {
        var i :| 0 <= i < |init| && KeyOf(init[i]) == k;
        assert issues[i] == init[i];
      }
      if exists i :: 0 <= i < |issues| && KeyOf(issues[i]) == k {
        var i :| 0 <= i < |issues| && KeyOf(issues[i]) == k;
        if i < |init| {
          assert init[i] == issues[i];
        }
      }
    }
  }

  /** The message kept under a key is the one of the last issue filed under it. */
  lemma {:induction false} LastIssueWins(issues: seq<Issue>, i: nat)
    requires i < |issues|
    requires forall j :: i < j < |issues| ==> KeyOf(issues[j]) != KeyOf(issues[i])
    ensures KeyOf(issues[i]) in IssuesToMap(issues)
    ensures IssuesToMap(issues)[KeyOf(issues[i])] == issues[i].message
  {
    if i < |issues| - 1 {
      var init := issues[..|issues| - 1];
      assert forall j :: i < j < |init| ==> init[j] == issues[j];
      LastIssueWins(init, i);
      assert init[i] == issues[i];
    }
  }

  /** Every message in the record is the message of some issue filed under its key. */
  lemma {:induction false} MessagesComeFromIssues(issues: seq<Issue>, k: string)
    requires k in IssuesToMap(issues)
    ensures exists i :: 0 <= i < |issues| && KeyOf(issues[i]) == k && issues[i].message == IssuesToMap(issues)[k]
  {
    var init := issues[..|issues| - 1];
    var last := issues[|issues| - 1];
    if KeyOf(last) != k {
      MessagesComeFromIssues(init, k);
      var i :| 0 <= i < |init| && KeyOf(init[i]) == k && init[i].message == IssuesToMap(init)[k];
      assert issues[i] == init[i];
    }
  }

  /** A one-segment path is filed under that segment unchanged, e.g. `["email"]` under `"email"`. */
  lemma SingleSegmentKey(segment: string, message: string)
    ensures KeyOf(Issue([segment], message)) == segment
  {
  }

  /**
    A path of several segments is filed under its segments with a dot between
    each pair: extending a non-empty path by a segment appends `.` and that
    segment to its key, so `["address", "city"]` is filed under `"address.city"`.
  */
  lemma NestedPathKey(path: seq<string>, segment: string, message: string)
    ensures path != [] ==> KeyOf(Issue(path + [segment], message)) == KeyOf(Issue(path, message)) + "." + segment
    ensures KeyOf(Issue(["address", "city"], message)) == "address.city"
    ensures KeyOf(Issue([], message)) == Global
  {
    if path != [] {
      JoinStringsSnoc(path, segment, ".");
    }
    JoinStringsSnoc(["address"], "city", ".");
    assert ["address"] + ["city"] == ["address", "city"];
  }

  /**
    For a field whose issues all sit on the one-segment path `[f]` (as in every
    schema of the application), the record holds `f` exactly when the field has
    a message, and then it holds the field's last message.
  */
  lemma {:induction false} FieldEntry(issues: seq<Issue>, f: string)
    requires forall i :: 0 <= i < |issues| ==> |issues[i].path| == 1
    ensures f in IssuesToMap(issues) <==> FieldMessages(issues, f) != []
    ensures f in IssuesToMap(issues) ==>
      var msgs := FieldMessages(issues, f);
      IssuesToMap(issues)[f] == msgs[|msgs| - 1]
  {
    if issues != [] {
      var init := issues[..|issues| - 1];
      var last := issues[|issues| - 1];
      FieldEntry(init, f);
      assert issues == init + [last];
      FieldMessagesAppend(init, [last], f);
      assert FieldMessages([last], f) == (if last.path == [f] then [last.message] else []);
      assert KeyOf(last) == last.path[0];
      assert last.path == [last.path[0]];
    }
  }
}
