/** How the admin interface hides credentials behind structured placeholders and resolves the
    placeholders it gets back (app/routers/admin.py). */
module AdminSecrets {
  import opened Text
  import opened Json
  import Redaction

  // ---- which values are secret ----

  function Lower(key: string): string {
    seq(|key|, i requires 0 <= i < |key| =>
          var c := key[i];
          if 'A' <= c <= 'Z' then (c as int + 32) as char
          else if c == '\U{212A}' then 'k'
          else if c == '-' then '_'
          else c)
  }

  predicate StandsAt(s: string, part: string, i: int) { 0 <= i <= |s| - |part| && s[i..i + |part|] == part }

  predicate HasPart(s: string, part: string) { exists i :: 0 <= i <= |s| && StandsAt(s, part, i) }

  /** `part` is one of the pieces of `s` between underscores. */
  predicate HasPiece(s: string, part: string) {
    exists i :: 0 <= i <= |s| && StandsAt(s, part, i) && (i == 0 || s[i - 1] == '_') && (i + |part| == |s| || s[i + |part|] == '_')
  }

  /** `_is_secret_key`. */
  predicate IsSecret(key: string) {
    var n := Lower(key);
    && n != "" && n != "api_key_env"
    && (n in {"api_key", "access_key", "secret_key", "secret", "token", "password", "authorization", "client_secret",
              "refresh_token", "app_secret"}
        || HasPart(n, "api_key") || HasPart(n, "secret") || HasPart(n, "password") || HasPart(n, "authorization")
        || HasPiece(n, "token"))
  }

  /** Everything in an environment or header table is treated as a secret. */
  predicate IsPool(key: string) { Lower(key) == "env" || Lower(key) == "headers" }

  // ---- the placeholders ----

  function Literal(): Json { Obj([Field("redacted", Bool(true)), Field("configured", Bool(true)), Field("source", Str("literal"))]) }

  function Unset(): Json { Obj([Field("redacted", Bool(false)), Field("configured", Bool(false))]) }

  function Reference(v: Json): Json {
    Obj([Field("redacted", Bool(false)), Field("configured", Bool(true)), Field("source", Str("env_ref")), Field("value", v)])
  }

  predicate IsLiteral(v: Json) {
    && Matches(v, {"redacted", "configured", "source"})
    && Get(v.fields, "redacted") == Bool(true) && Get(v.fields, "configured") == Bool(true) && Get(v.fields, "source") == Str("literal")
  }

  predicate IsUnset(v: Json) {
    && Matches(v, {"redacted", "configured"})
    && Get(v.fields, "redacted") == Bool(false) && Get(v.fields, "configured") == Bool(false)
  }

  predicate IsReference(v: Json) {
    && Matches(v, {"redacted", "configured", "source", "value"})
    && Get(v.fields, "redacted") == Bool(false) && Get(v.fields, "configured") == Bool(true) && Get(v.fields, "source") == Str("env_ref")
  }

  // ---- the two transformations ----

  /** `_redacted_secret`. */
  function RedactSecret(v: Json): Json {
    if v == Null || v == Str("") then Unset()
    else if v.Str? && Redaction.Strip(v.s) != "" && Redaction.Strip(v.s)[0] == '$' then Reference(v)
    else Literal()
  }

  /** `_redact_value`; list items have the key "". */
  function Redact(key: string, v: Json): Json
    decreases v
  {
    if IsPool(key) && v.Obj? then
      Obj(seq(|v.fields|, i requires 0 <= i < |v.fields| => Field(v.fields[i].key, RedactSecret(v.fields[i].value))))
    else if IsSecret(key) then RedactSecret(v)
    else match v
    case Obj(fields) =>
      Obj(seq(|fields|, i requires 0 <= i < |fields| => Field(fields[i].key, Redact(fields[i].key, fields[i].value))))
    case Arr(items) => Arr(seq(|items|, i requires 0 <= i < |items| => Redact("", items[i])))
    case _ => v
  }

  /** `_restore_redacted_values`; None if a placeholder stands for a value that does not exist. */
  function Restore(incoming: Json, existing: Json): Option<Json> {
    match incoming
    case Obj(fields) =>
      if IsLiteral(incoming) then (if existing == Null then None else Some(existing))
      else if IsUnset(incoming) then Some(Null)
      else if IsReference(incoming) then Some(Get(fields, "value"))
      else
        var parts := seq(|fields|, i requires 0 <= i < |fields| => Restore(fields[i].value, GetIn(existing, fields[i].key)));
        if None in parts then None
        else Some(Obj(seq(|fields|, i requires 0 <= i < |fields| =>
                            assert parts[i] in parts; Field(fields[i].key, parts[i].value))))
    case Arr(items) =>
      var parts := seq(|items|, i requires 0 <= i < |items| => Restore(items[i], ItemIn(existing, i)));
      if None in parts then None
      else Some(Arr(seq(|items|, i requires 0 <= i < |items| => assert parts[i] in parts; parts[i].value)))
    case _ => Some(incoming)
  }

  // ---- the vocabulary of the placeholders is not itself secret ----

  predicate Harmless(word: string) { !IsSecret(word) && !IsPool(word) }

  lemma PartNeeds(s: string, part: string, k: nat)
    requires k < |part|
    ensures HasPart(s, part) ==> part[k] in s && (|s| == |part| ==> s == part)
  {
    if HasPart(s, part) {
      var i :| 0 <= i <= |s| && StandsAt(s, part, i);
      assert s[i..i + |part|][k] == s[i + k];
      assert i == 0 && |s| == |part| ==> s[0..|s|] == s;
    }
  }

  lemma PieceIsWhole(s: string, part: string)
    ensures '_' !in s && HasPiece(s, part) ==> s == part
  {
    if '_' !in s && HasPiece(s, part) {
      var i :| 0 <= i <= |s| && StandsAt(s, part, i) && (i == 0 || s[i - 1] == '_') && (i + |part| == |s| || s[i + |part|] == '_');
      assert i == 0 && i + |part| == |s| && s[0..|s|] == s;
    }
  }

  lemma HarmlessWord(word: string)
    requires |word| > 3 && word != "secret" && word != "token"
    requires forall c :: c in word ==> 'a' <= c <= 'z' && c != 'p' && c != 'h'
    requires 's' in word ==> |word| == 6
    ensures Harmless(word)
  {
    forall i | 0 <= i < |word| ensures Lower(word)[i] == word[i] && word[i] != '_' && word[i] != 'p' && word[i] != 'h' {
      assert word[i] in word;
    }
    assert Lower(word) == word && '_' !in word && 'p' !in word && 'h' !in word && "headers"[0] == 'h';
    assert "api_key"[3] == '_' && "access_key"[6] == '_' && "secret_key"[6] == '_' && "client_secret"[6] == '_'
      && "refresh_token"[7] == '_' && "app_secret"[3] == '_';
    assert "password"[0] == 'p' && "authorization"[3] == 'h' && "secret"[0] == 's';
    PartNeeds(word, "api_key", 3);
    PartNeeds(word, "password", 0);
    PartNeeds(word, "authorization", 3);
    PartNeeds(word, "secret", 0);
    PieceIsWhole(word, "token");
  }

  lemma RedactedIsHarmless() ensures Harmless("redacted") { HarmlessWord("redacted"); }

  lemma ConfiguredIsHarmless() ensures Harmless("configured") { HarmlessWord("configured"); }

  lemma SourceIsHarmless()
    ensures Harmless("source")
  {
    assert "source"[1] == 'o' && "secret"[1] == 'e';
    HarmlessWord("source");
  }

  lemma ValueIsHarmless()
    ensures Harmless("value")
  {
    assert "value"[0] == 'v' && "token"[0] == 't';
    HarmlessWord("value");
  }

  lemma PlaceholderWords()
    ensures Harmless("redacted") && Harmless("configured") && Harmless("source") && Harmless("value")
  {
    RedactedIsHarmless();
    ConfiguredIsHarmless();
    SourceIsHarmless();
    ValueIsHarmless();
  }

  // ---- when the round trip is exact ----

  /** What the transformations keep: no empty secret, and nothing that looks like a placeholder
      for no value or for an environment variable. */
  predicate Plain(key: string, v: Json)
    decreases v
  {
    if IsPool(key) && v.Obj? then forall i :: 0 <= i < |v.fields| ==> v.fields[i].value != Str("")
    else if IsSecret(key) then v != Str("")
    else match v
    case Obj(fields) =>
      IsLiteral(v) || (!IsUnset(v) && !IsReference(v) && forall i :: 0 <= i < |fields| ==> Plain(fields[i].key, fields[i].value))
    case Arr(items) => forall i :: 0 <= i < |items| ==> Plain("", items[i])
    case _ => true
  }

  lemma LiteralReads()
    ensures IsLiteral(Literal())
  {
    var f := Literal().fields;
    assert f[0].key == "redacted" && f[1].key == "configured" && f[2].key == "source" && f == [f[0], f[1], f[2]];
    GetAt(f, 0);
    GetAt(f, 1);
    GetAt(f, 2);
  }

  lemma UnsetReads()
    ensures IsUnset(Unset()) && !IsLiteral(Unset())
  {
    var f := Unset().fields;
    assert f[0].key == "redacted" && f[1].key == "configured" && f == [f[0], f[1]];
    GetAt(f, 0);
    GetAt(f, 1);
  }

  lemma ReferenceReads(v: Json)
    ensures IsReference(Reference(v)) && !IsLiteral(Reference(v)) && !IsUnset(Reference(v))
    ensures Get(Reference(v).fields, "value") == v
  {
    var f := Reference(v).fields;
    assert f[0].key == "redacted" && f[1].key == "configured" && f[2].key == "source" && f[3].key == "value";
    assert f == [f[0], f[1], f[2], f[3]];
    GetAt(f, 0);
    GetAt(f, 1);
    GetAt(f, 2);
    GetAt(f, 3);
    assert f[3] in f;
  }

  lemma SecretRoundTrip(v: Json)
    ensures Restore(RedactSecret(v), v) == if v == Str("") then Some(Null) else Some(v)
  {
    LiteralReads();
    UnsetReads();
    ReferenceReads(v);
  }

  function RedactFields(fields: seq<Field>): seq<Field> {
    seq(|fields|, i requires 0 <= i < |fields| => Field(fields[i].key, Redact(fields[i].key, fields[i].value)))
  }

  lemma {:induction false} GetRedacted(fields: seq<Field>, k: string)
    requires Harmless(k)
    ensures Get(RedactFields(fields), k) == Redact(k, Get(fields, k))
    ensures KeySet(RedactFields(fields)) == KeySet(fields)
  {
    var redacted := RedactFields(fields);
    forall key ensures key in KeySet(redacted) <==> key in KeySet(fields) {
      if key in KeySet(redacted) {
        var f :| f in redacted && f.key == key;
        var i :| 0 <= i < |redacted| && redacted[i] == f;
        assert fields[i] in fields;
      }
      if key in KeySet(fields) {
        var f :| f in fields && f.key == key;
        var i :| 0 <= i < |fields| && fields[i] == f;
        assert redacted[i] in redacted;
      }
    }
    if fields != [] && fields[0].key != k {
      GetRedacted(fields[1..], k);
      assert redacted[1..] == RedactFields(fields[1..]);
    }
  }

  /** Redaction neither makes nor hides an object that looks like a placeholder. */
  lemma LooksKept(fields: seq<Field>)
    ensures IsLiteral(Obj(RedactFields(fields))) == IsLiteral(Obj(fields))
    ensures IsUnset(Obj(RedactFields(fields))) == IsUnset(Obj(fields))
    ensures IsReference(Obj(RedactFields(fields))) == IsReference(Obj(fields))
  {
    PlaceholderWords();
    GetRedacted(fields, "redacted");
    GetRedacted(fields, "configured");
    GetRedacted(fields, "source");
  }

  /** What stands for an environment variable never is the object that stands for it. */
  lemma {:induction false} NotItsOwnValue(v: Json)
    requires v.Obj?
    ensures Redact("value", Get(v.fields, "value")) != v
    decreases v
  {
    PlaceholderWords();
    var inner := Get(v.fields, "value");
    if Redact("value", inner) == v {
      assert inner.Obj? && v.fields == RedactFields(inner.fields);
      GetRedacted(inner.fields, "value");
      if "value" in KeySet(v.fields) {
        var i := IndexOf(v.fields, "value");
        assert inner < v;
      } else {
        GetMissing(v.fields, "value");
      }
      NotItsOwnValue(inner);
    }
  }

  /** The parts come back, and the whole comes back exactly when every part does. */
  lemma FieldsComeBack(fields: seq<Field>, shown: seq<Field>)
    requires DistinctKeys(fields) && |shown| == |fields| && forall i :: 0 <= i < |fields| ==> shown[i].key == fields[i].key
    requires !IsLiteral(Obj(shown)) && !IsUnset(Obj(shown)) && !IsReference(Obj(shown))
    ensures Restore(Obj(shown), Obj(fields)) == Some(Obj(fields)) <==>
              forall i :: 0 <= i < |fields| ==> Restore(shown[i].value, fields[i].value) == Some(fields[i].value)
  {
    var v := Obj(fields);
    var parts := seq(|shown|, i requires 0 <= i < |shown| => Restore(shown[i].value, GetIn(v, shown[i].key)));
    forall i | 0 <= i < |fields| ensures parts[i] == Restore(shown[i].value, fields[i].value) { GetAt(fields, i); }
    if None in parts {
      var i :| 0 <= i < |parts| && parts[i] == None;
      assert Restore(shown[i].value, fields[i].value) == None;
    } else {
      var back := Restore(Obj(shown), v).value.fields;
      forall i | 0 <= i < |fields| ensures back[i] == fields[i] <==> parts[i] == Some(fields[i].value) {
        assert parts[i] in parts;
      }
      assert |back| == |fields|;
      assert back == fields <==> forall i :: 0 <= i < |fields| ==> back[i] == fields[i];
    }
  }

  lemma ItemsComeBack(items: seq<Json>, shown: seq<Json>)
    requires |shown| == |items|
    ensures Restore(Arr(shown), Arr(items)) == Some(Arr(items)) <==>
              forall i :: 0 <= i < |items| ==> Restore(shown[i], items[i]) == Some(items[i])
  {
    var v := Arr(items);
    var parts := seq(|shown|, i requires 0 <= i < |shown| => Restore(shown[i], ItemIn(v, i)));
    if None in parts {
      var i :| 0 <= i < |parts| && parts[i] == None;
      assert Restore(shown[i], items[i]) == None;
    } else {
      var back := Restore(Arr(shown), v).value.items;
      forall i | 0 <= i < |items| ensures back[i] == items[i] <==> Restore(shown[i], items[i]) == Some(items[i]) {
        assert parts[i] in parts;
      }
      assert |back| == |items|;
      assert back == items <==> forall i :: 0 <= i < |items| ==> back[i] == items[i];
    }
  }

  lemma PoolComesBack(fields: seq<Field>)
    requires DistinctKeys(fields)
    ensures var shown := seq(|fields|, i requires 0 <= i < |fields| => Field(fields[i].key, RedactSecret(fields[i].value)));
            Restore(Obj(shown), Obj(fields)) == Some(Obj(fields)) <==> forall i :: 0 <= i < |fields| ==> fields[i].value != Str("")
  {
    var shown := seq(|fields|, i requires 0 <= i < |fields| => Field(fields[i].key, RedactSecret(fields[i].value)));
    forall i | 0 <= i < |fields| ensures Restore(shown[i].value, fields[i].value) == Some(fields[i].value) <==> fields[i].value != Str("") {
      SecretRoundTrip(fields[i].value);
    }
    if "redacted" in KeySet(shown) { var i := IndexOf(shown, "redacted"); }
    FieldsComeBack(fields, shown);
  }

  /** A configuration shown and sent back unedited is restored if and only if it is plain:
      an empty secret comes back as no value, and a look-alike of a placeholder is taken for one. */
  lemma {:induction false} RoundTripExactly(key: string, v: Json)
    requires WellFormed(v)
    ensures Restore(Redact(key, v), v) == Some(v) <==> Plain(key, v)
    decreases v
  {
    if IsPool(key) && v.Obj? {
      PoolComesBack(v.fields);
    } else if IsSecret(key) {
      SecretRoundTrip(v);
    } else {
      match v
      case Obj(fields) =>
        assert Redact(key, v) == Obj(RedactFields(fields));
        LooksKept(fields);
        if IsReference(v) {
          PlaceholderWords();
          GetRedacted(fields, "value");
          NotItsOwnValue(v);
        } else if !IsLiteral(v) && !IsUnset(v) {
          forall i | 0 <= i < |fields|
            ensures Restore(RedactFields(fields)[i].value, fields[i].value) == Some(fields[i].value)
               <==> Plain(fields[i].key, fields[i].value) {
            RoundTripExactly(fields[i].key, fields[i].value);
          }
          FieldsComeBack(fields, RedactFields(fields));
        }
      case Arr(items) =>
        var shown := Redact(key, v).items;
        forall i | 0 <= i < |items| ensures Restore(shown[i], items[i]) == Some(items[i]) <==> Plain("", items[i]) {
          RoundTripExactly("", items[i]);
        }
        ItemsComeBack(items, shown);
      case _ =>
    }
  }

  /** An empty password comes back as no value at all. */
  lemma EmptySecretIsLost()
    ensures Restore(Redact("password", Str("")), Str("")) == Some(Null)
  {
    var key := "password";
    assert |Lower(key)| == 8 && Lower(key)[0] == 'p' && "headers"[0] == 'h';
    assert Lower(key) == key;
    SecretRoundTrip(Str(""));
  }
}
