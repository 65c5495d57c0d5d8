/** Redaction of sensitive fields before structured data is logged. */
module LoggingConfig {
  import opened Text

  /** A logged value: a dict, a list, or anything else (strings, numbers,
      booleans, None, tuples), which is never looked into. */
  datatype Value = Scalar(text: string) | Dict(fields: map<string, Value>) | List(items: seq<Value>)

  /** The substrings that mark a key as sensitive. */
  const SensitiveKeys: seq<string> :=
    ["api_key", "apikey", "api-key", "token", "password", "secret",
     "authorization", "auth", "cookie", "session"]

  /** What a sensitive field's value is replaced by. */
  const Redacted: Value := Scalar("[REDACTED]")

  /** A key is sensitive when its lower-case form contains one of the
      listed substrings. */
  predicate IsSensitiveKey(key: string)
    // The shortest listed substring has four characters.
    ensures IsSensitiveKey(key) ==> |key| >= 4
  {
    exists s :: s in SensitiveKeys && Contains(Lower(key), s)
  }

  /** Sanitising one value: a dict gets its sensitive fields redacted and
      its other fields sanitised; a list gets its dict elements sanitised
      and keeps every other element as it is; anything else is kept. */
  function SanitizeValue(v: Value): (r: Value)
    ensures v.Scalar? ==> r == v
    ensures v.Dict? <==> r.Dict?
    ensures v.List? <==> r.List?
    ensures v.Dict? ==> r.fields.Keys == v.fields.Keys
    ensures v.List? ==> |r.items| == |v.items|
    decreases v
  {
    match v
    case Scalar(_) => v
    case Dict(f) =>
      Dict(map k | k in f :: if IsSensitiveKey(k) then Redacted else SanitizeValue(f[k]))
    case List(items) =>
      List(seq(|items|, i requires 0 <= i < |items| =>
        if items[i].Dict? then SanitizeValue(items[i]) else items[i]))
  }

  /** The logged dict with sensitive values redacted; a new dict is built
      and the input is left as it was. */
  function SanitizeSensitiveData(data: map<string, Value>): (r: map<string, Value>)
    ensures r.Keys == data.Keys
    ensures forall k :: k in data && IsSensitiveKey(k) ==> r[k] == Redacted
    ensures forall k :: k in data && !IsSensitiveKey(k) ==> r[k] == SanitizeValue(data[k])
    ensures forall k :: k in data && !IsSensitiveKey(k) && data[k].Scalar? ==> r[k] == data[k]
  {
    SanitizeValue(Dict(data)).fields
  }

  /** Within a list, a dict element is sanitised and every other element,
      a nested list included, is kept untouched. */
  lemma ListElements(items: seq<Value>, i: nat)
    requires i < |items|
    ensures var r := SanitizeValue(List(items)).items[i];
      && (items[i].Dict? ==> r == Dict(SanitizeSensitiveData(items[i].fields)))
      && (!items[i].Dict? ==> r == items[i])
  {
  }

  /** Sanitising is idempotent. */
  lemma {:induction false} SanitizeValueIdempotent(v: Value)
    ensures SanitizeValue(SanitizeValue(v)) == SanitizeValue(v)
    decreases v
  {
    match v
    case Scalar(_) =>
    case Dict(f) =>
      var once := SanitizeValue(v).fields;
      var twice := SanitizeValue(SanitizeValue(v)).fields;
      forall k | k in f
        ensures twice[k] == once[k]
      {
        if !IsSensitiveKey(k) {
          SanitizeValueIdempotent(f[k]);
        }
      }
      assert twice == once;
    case List(items) =>
      var once := SanitizeValue(v).items;
      var twice := SanitizeValue(SanitizeValue(v)).items;
      forall i | 0 <= i < |items|
        ensures twice[i] == once[i]
      {
        if items[i].Dict? {
          SanitizeValueIdempotent(items[i]);
        }
      }
      assert twice == once;
  }

  /** Applying the redaction twice equals applying it once. */
  lemma SanitizeIdempotent(data: map<string, Value>)
    ensures SanitizeSensitiveData(SanitizeSensitiveData(data)) == SanitizeSensitiveData(data)
  {
    SanitizeValueIdempotent(Dict(data));
  }

  /** No sensitive key reachable through dicts, and through dicts held
      directly in lists, holds anything but the redaction marker. */
  predicate Clean(v: Value)
    decreases v
  {
    match v
    case Scalar(_) => true
    case Dict(f) => forall k :: k in f ==> (IsSensitiveKey(k) ==> f[k] == Redacted) && Clean(f[k])
    case List(items) => forall i :: 0 <= i < |items| && items[i].Dict? ==> Clean(items[i])
  }

  lemma {:induction false} SanitizedValueIsClean(v: Value)
    requires !v.List?
    ensures Clean(SanitizeValue(v))
    decreases v, 0
  {
    match v
    case Scalar(_) =>
    case Dict(f) =>
      var r := SanitizeValue(v).fields;
      forall k | k in r
        ensures (IsSensitiveKey(k) ==> r[k] == Redacted) && Clean(r[k])
      {
        if !IsSensitiveKey(k) {
          SanitizedFieldIsClean(f[k]);
        }
      }
  }

  lemma {:induction false} SanitizedFieldIsClean(v: Value)
    ensures Clean(SanitizeValue(v))
    decreases v, 1
  {
    match v
    case List(items) =>
      var r := SanitizeValue(v).items;
      forall i | 0 <= i < |r| && r[i].Dict?
        ensures Clean(r[i])
      {
        SanitizedValueIsClean(items[i]);
      }
    case _ =>
      SanitizedValueIsClean(v);
  }

  /** After sanitising, every sensitive key the sanitiser looks at is
      redacted, at any depth. */
  lemma SanitizedIsClean(data: map<string, Value>)
    ensures Clean(Dict(SanitizeSensitiveData(data)))
  {
    SanitizedValueIsClean(Dict(data));
  }

  /** A key whose lower-case form starts with one of the listed substrings
      is sensitive. */
  lemma SensitiveByPrefix(key: string, i: nat)
    requires i < |SensitiveKeys| && StartsWith(Lower(key), SensitiveKeys[i])
    ensures IsSensitiveKey(key)
  {
    assert Contains(Lower(key), SensitiveKeys[i]);
  }

  /** The example of a session identifier is a sensitive key. */
  lemma SessionIdIsSensitive()
    ensures IsSensitiveKey("session_id")
  {
    LowerUnchanged("session_id");
    assert "session_id"[..7] == SensitiveKeys[9];
    SensitiveByPrefix("session_id", 9);
  }

  /** An authorization header is a sensitive key whatever its case
      ("Authorization", "AUTHORIZATION", ...). */
  lemma AuthorizationIsSensitive(key: string)
    requires Lower(key) == "authorization"
    ensures IsSensitiveKey(key)
  {
    assert Lower(key)[..13] == SensitiveKeys[6];
    SensitiveByPrefix(key, 6);
  }

  /** A list held directly inside a list is not looked into, so a sensitive
      field in a dict inside it is kept. */
  lemma NestedListIsKept(inner: map<string, Value>)
    ensures var data := map["items" := List([List([Dict(inner)])])];
      SanitizeSensitiveData(data)["items"] == data["items"]
  {
    var data := map["items" := List([List([Dict(inner)])])];
    assert !IsSensitiveKey("items") by {
      assert Lower("items") == "items";
      forall s | s in SensitiveKeys
        ensures !Contains("items", s)
      {
        if Contains("items", s) {
          var i := ContainsWitness("items", s);
        }
      }
    }
    assert SanitizeValue(data["items"]).items == [List([Dict(inner)])];
  }
}
