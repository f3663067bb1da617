/**
 * `getClerkErrorMessage`: turns whatever the identity provider's SDK threw
 * into the one message shown to the user.
 */
module ClerkError {
  import opened JsValues

  const Fallback: string := "Something went wrong. Please try again."

  /** Does `err` pass the guard: a truthy object with an `errors` array? */
  predicate HasErrorsArray(err: Js) {
    Truthy(err) && IsTypeofObject(err) && err.Obj? && "errors" in err.props && err.props["errors"].Arr?
  }

  /**
   * The message for `err`: `errors[0].longMessage`, else `errors[0].message`,
   * else the fallback. The `||` chain returns the first truthy operand as it is.
   */
  function ErrorMessage(err: Js): (r: Js)
    ensures Truthy(r)
    ensures !HasErrorsArray(err) ==> r == Str(Fallback)
    ensures r == Str(Fallback) || (HasErrorsArray(err) && |err.props["errors"].elems| > 0 &&
              (r == Member(err.props["errors"].elems[0], "longMessage") ||
               r == Member(err.props["errors"].elems[0], "message")))
  {
    if Truthy(err) && IsTypeofObject(err) && Member(err, "errors").Arr? then
      var first := Index(Member(err, "errors").elems, 0);
      Or(Or(Member(first, "longMessage"), Member(first, "message")), Str(Fallback))
    else
      Str(Fallback)
  }

  /** `null`, `undefined`, numbers, strings, booleans and functions all give the fallback. */
  lemma NonObjectFallback(err: Js)
    requires !err.Obj? && !err.Arr?
    ensures ErrorMessage(err) == Str(Fallback)
  {
  }

  /** Objects without an `errors` property, or whose `errors` is not an array, give the fallback. */
  lemma NoErrorsArrayFallback(props: map<string, Js>)
    requires "errors" !in props || !props["errors"].Arr?
    ensures ErrorMessage(Obj(props)) == Str(Fallback)
  {
  }

  /** An empty `errors` array gives the fallback. */
  lemma EmptyErrorsFallback(props: map<string, Js>)
    requires "errors" in props && props["errors"] == Arr([])
    ensures ErrorMessage(Obj(props)) == Str(Fallback)
  {
  }

  /** A truthy `longMessage` on the first entry wins. */
  lemma LongMessageFirst(props: map<string, Js>, entries: seq<Js>, entry: map<string, Js>)
    requires "errors" in props && props["errors"] == Arr(entries)
    requires |entries| > 0 && entries[0] == Obj(entry)
    requires "longMessage" in entry && Truthy(entry["longMessage"])
    ensures ErrorMessage(Obj(props)) == entry["longMessage"]
  {
  }

  /** With no usable `longMessage`, a truthy `message` comes next. */
  lemma MessageSecond(props: map<string, Js>, entries: seq<Js>, entry: map<string, Js>)
    requires "errors" in props && props["errors"] == Arr(entries)
    requires |entries| > 0 && entries[0] == Obj(entry)
    requires "longMessage" !in entry || !Truthy(entry["longMessage"])
    requires "message" in entry && Truthy(entry["message"])
    ensures ErrorMessage(Obj(props)) == entry["message"]
  {
  }

  /** Entries after the first never affect the message. */
  lemma OnlyFirstEntryCounts(props: map<string, Js>, first: Js, rest1: seq<Js>, rest2: seq<Js>)
    ensures ErrorMessage(Obj(props["errors" := Arr([first] + rest1)])) ==
            ErrorMessage(Obj(props["errors" := Arr([first] + rest2)]))
  {
  }

  /** Fields that hold strings or are absent, as the SDK's error type declares. */
  predicate StringOrAbsent(entry: Js, key: string) {
    Member(entry, key).Undefined? || Member(entry, key).Str?
  }

  /**
   * Under the SDK's declared entry shape the result is always a non-empty
   * string: an empty `longMessage` or `message` falls through to the next choice.
   */
  lemma NonEmptyStringForDeclaredShape(err: Js)
    requires HasErrorsArray(err) && |err.props["errors"].elems| > 0 ==>
      StringOrAbsent(err.props["errors"].elems[0], "longMessage") &&
      StringOrAbsent(err.props["errors"].elems[0], "message")
    ensures ErrorMessage(err).Str? && ErrorMessage(err).s != ""
  {
  }

  /**
   * A first entry whose `longMessage` and `message` are both falsy (absent,
   * empty strings, 0, `null`, ...) gives the fallback, whatever follows it.
   */
  lemma FalsyFieldsFallThrough(props: map<string, Js>, entries: seq<Js>)
    requires "errors" in props && props["errors"] == Arr(entries) && |entries| > 0
    requires !Truthy(Member(entries[0], "longMessage")) && !Truthy(Member(entries[0], "message"))
    ensures ErrorMessage(Obj(props)) == Str(Fallback)
  {
  }
}
