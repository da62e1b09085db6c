/**
  The state both pages keep while a form is submitted: the field errors held
  by react-hook-form (`setError`, cleared by `reset`), the page's
  `globalError` banner and its `loading` flag; and the dispatch both pages
  run after a failed request (the catch blocks of the two `onSubmit`
  handlers are identical but for the default text).
*/
module Forms {

  import opened Wrappers
  import opened Js
  import opened ServerErrors
  import ZodErrorMap

  /** The `type` passed to `setError`: schema failures are `'manual'`, server failures `'server'`. */
  datatype ErrorKind = Manual | Server

  datatype FieldError = FieldError(kind: ErrorKind, message: string)

  /** What the request came back with: success, or the error the HTTP client threw. */
  datatype NetworkOutcome = Succeeded | Failed(err: Value)

  /** The field errors `setError(k, { type: kind, message: errors[k] })` leaves for every key of `errors`. */
  function AsFieldErrors(errors: map<string, string>, kind: ErrorKind): map<string, FieldError> {
    map k | k in errors :: FieldError(kind, errors[k])
  }

  /** The field errors a server failure sets: one per key of the mapped record except `_global`. */
  function ServerFieldErrors(mapped: map<string, string>): map<string, FieldError> {
    map k | k in mapped && k != ZodErrorMap.Global :: FieldError(Server, mapped[k])
  }

  /** `err?.response?.data?.message || fallback`, shown when the mapped record is empty. */
  function FallbackMessage(err: Value, fallback: string): string {
    var message := Get(ResponseData(err), "message");
    if Truthy(message) then ToString(message) else fallback
  }

  /** The field errors of a server failure are on exactly the non-`_global` keys, each with its mapped message. */
  lemma ServerFieldErrorsSplit(mapped: map<string, string>)
    ensures ServerFieldErrors(mapped).Keys == mapped.Keys - {ZodErrorMap.Global}
    ensures forall k :: k in ServerFieldErrors(mapped) ==> ServerFieldErrors(mapped)[k] == FieldError(Server, mapped[k])
  {
  }

  /** A server failure whose body is only a message sets no field error: the message goes to the banner. */
  lemma MessageOnlyFailureSetsNoField(err: Value)
    requires Truthy(ResponseData(err))
    requires var errors := Get(ResponseData(err), "errors"); !(Truthy(errors) && IsObjectType(errors))
    ensures ServerFieldErrors(ServerErrorMap(err)) == map[]
    ensures |ServerErrorMap(err)| > 0 <==> Truthy(Get(ResponseData(err), "message"))
    ensures Truthy(Get(ResponseData(err), "message")) ==>
      ServerErrorMap(err)[ZodErrorMap.Global] == FallbackMessage(err, "")
  {
    if Truthy(Get(ResponseData(err), "message")) {
      MessageGivesGlobal(err);
      assert ServerErrorMap(err).Keys == {ZodErrorMap.Global};
    } else {
      NeitherGivesEmpty(err);
    }
  }

  /** When the record is empty because the `errors` object is empty, the banner still shows the body's message. */
  lemma EmptyErrorsFallBackToMessage(err: Value, fallback: string, m: string)
    requires Truthy(ResponseData(err))
    requires Get(ResponseData(err), "errors") == Obj(map[])
    requires Get(ResponseData(err), "message") == Str(m) && m != ""
    ensures ServerErrorMap(err) == map[]
    ensures FallbackMessage(err, fallback) == m
  {
    EmptyErrorsIgnoreMessage(err);
  }

  class FormState {
    var fieldErrors: map<string, FieldError>
    var globalError: Option<string>
    var loading: bool

    /** A fresh form: no errors, no banner, not loading. */
    constructor ()
      ensures fieldErrors == map[] && globalError == None && !loading
    {
      fieldErrors := map[];
      globalError := None;
      loading := false;
    }

    /** `for (const k of Object.keys(errors)) setError(k, { type: kind, message: errors[k] })` */
    method SetErrors(errors: map<string, string>, kind: ErrorKind)
      modifies this
      ensures fieldErrors == old(fieldErrors) + AsFieldErrors(errors, kind)
      ensures globalError == old(globalError) && loading == old(loading)
    {
      var keys := errors.Keys;
      while keys != {}
        invariant keys <= errors.Keys
        invariant fieldErrors == old(fieldErrors) + map k | k in errors.Keys - keys :: FieldError(kind, errors[k])
        invariant globalError == old(globalError) && loading == old(loading)
        decreases keys
      {
        var k :| k in keys;
        fieldErrors := fieldErrors[k := FieldError(kind, errors[k])];
        keys := keys - {k};
      }
      assert errors.Keys - keys == errors.Keys;
    }

    /** The loop over a non-empty mapped record: `_global` goes to the banner, every other key to a field error. */
    method ApplyServerRecord(mapped: map<string, string>)
      modifies this
      ensures fieldErrors == old(fieldErrors) + ServerFieldErrors(mapped)
      ensures globalError == if ZodErrorMap.Global in mapped then Some(mapped[ZodErrorMap.Global]) else old(globalError)
      ensures loading == old(loading)
    {
      var keys := mapped.Keys;
      while keys != {}
        invariant keys <= mapped.Keys
        invariant fieldErrors == old(fieldErrors) +
          map k | k in mapped.Keys - keys && k != ZodErrorMap.Global :: FieldError(Server, mapped[k])
        invariant globalError ==
          if ZodErrorMap.Global in mapped && ZodErrorMap.Global !in keys then Some(mapped[ZodErrorMap.Global])
          else old(globalError)
        invariant loading == old(loading)
        decreases keys
      {
        var k :| k in keys;
        if k == ZodErrorMap.Global {
          globalError := Some(mapped[k]);
        } else {
          fieldErrors := fieldErrors[k := FieldError(Server, mapped[k])];
        }
        keys := keys - {k};
      }
      assert mapped.Keys - keys == mapped.Keys;
    }

    /**
      The catch block: map the error; a non-empty record is dispatched by
      `ApplyServerRecord`; an empty one puts the body's message, or the page's
      default text, on the banner.
    */
    method ReportServerFailure(err: Value, fallback: string)
      modifies this
      ensures var mapped := ServerErrorMap(err);
        if |mapped| > 0 then
          && fieldErrors == old(fieldErrors) + ServerFieldErrors(mapped)
          && globalError == (if ZodErrorMap.Global in mapped then Some(mapped[ZodErrorMap.Global]) else old(globalError))
        else
          && fieldErrors == old(fieldErrors)
          && globalError == Some(FallbackMessage(err, fallback))
      ensures loading == old(loading)
    {
      var mapped := MapServerErrorsToRhf(err);
      if |mapped| > 0 {
        ApplyServerRecord(mapped);
      } else {
        var message := Get(ResponseData(err), "message");
        var msg := if Truthy(message) then ToString(message) else fallback;
        globalError := Some(msg);
      }
    }
  }
}
