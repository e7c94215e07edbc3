/** Hiding secrets in a configuration shown to a user, and putting them back when the user sends
    it in again (deerflow/config_tool.py, `_redact_sensitive` and `_restore_redacted`). */
module Redaction {
  import opened Json

  const SENTINEL := Str("__DEERFLOW_REDACTED__")

  // ---- which values are secret ----

  predicate IsSpace(c: char) {
    || '\t' <= c <= '\r' || '\U{1C}' <= c <= ' ' || c == '\U{85}' || c == '\U{A0}' || c == '\U{1680}'
    || '\U{2000}' <= c <= '\U{200A}' || c == '\U{2028}' || c == '\U{2029}' || c == '\U{202F}'
    || c == '\U{205F}' || c == '\U{3000}'
  }

  function Strip(s: string): string {
    if s == "" then ""
    else if IsSpace(s[0]) then Strip(s[1..])
    else if IsSpace(s[|s| - 1]) then Strip(s[..|s| - 1])
    else s
  }

  /** Lower case as far as it can produce a letter a to z; '-' becomes '_'. */
  function Normal(c: char): char {
    if 'A' <= c <= 'Z' then (c as int + 32) as char else if c == '\U{212A}' then 'k' else if c == '-' then '_' else c
  }

  function Normalized(key: string): string {
    var stripped := Strip(key);
    seq(|stripped|, i requires 0 <= i < |stripped| => Normal(stripped[i]))
  }

  predicate EndsWith(s: string, suffix: string) { |s| >= |suffix| && s[|s| - |suffix|..] == suffix }

  /** `_is_sensitive_key`. */
  predicate IsSensitive(key: string) {
    var n := Normalized(key);
    || n in {"api_key", "access_key", "secret_key", "private_key", "app_secret", "client_secret", "password",
             "token", "access_token", "refresh_token", "verification_token", "credential", "credentials"}
    || EndsWith(n, "_api_key") || EndsWith(n, "_access_key") || EndsWith(n, "_secret") || EndsWith(n, "_password")
    || EndsWith(n, "_token")
  }

  predicate IsNameStart(c: char) { 'A' <= c <= 'Z' || 'a' <= c <= 'z' || c == '_' }

  predicate IsNamePart(c: char) { IsNameStart(c) || '0' <= c <= '9' }

  /** A reference to an environment variable, `$NAME` or `${...}` on one line. */
  predicate IsReference(text: string) {
    var s := Strip(text);
    || (|s| >= 2 && s[0] == '$' && IsNameStart(s[1]) && forall i :: 2 <= i < |s| ==> IsNamePart(s[i]))
    || (|s| >= 4 && s[0] == '$' && s[1] == '{' && s[|s| - 1] == '}' && forall i :: 2 <= i < |s| - 1 ==> s[i] != '\n')
  }

  /** A configured value under a sensitive key that only the server may know. */
  predicate Hidden(v: Json, key: string) {
    IsSensitive(key) && v != Null && v != Str("") && !(v.Str? && IsReference(v.s))
  }

  // ---- the two transformations ----

  /** `_redact_sensitive`. */
  function Redact(v: Json, key: string): Json {
    if Hidden(v, key) then SENTINEL else
    match v
    case Obj(fields) =>
      Obj(seq(|fields|, i requires 0 <= i < |fields| => Field(fields[i].key, Redact(fields[i].value, fields[i].key))))
    case Arr(items) => Arr(seq(|items|, i requires 0 <= i < |items| => Redact(items[i], "")))
    case _ => v
  }

  /** `_restore_redacted`. */
  function Restore(incoming: Json, existing: Json): Json {
    if incoming == SENTINEL then (if existing == Null then SENTINEL else existing) else
    match incoming
    case Obj(fields) =>
      Obj(seq(|fields|, i requires 0 <= i < |fields| =>
                Field(fields[i].key, Restore(fields[i].value, GetIn(existing, fields[i].key)))))
    case Arr(items) => Arr(seq(|items|, i requires 0 <= i < |items| => Restore(items[i], ItemIn(existing, i))))
    case _ => incoming
  }

  /** `_contains_redacted`. */
  predicate Contains(v: Json) {
    v == SENTINEL ||
    match v
    case Obj(fields) => exists i :: 0 <= i < |fields| && Contains(fields[i].value)
    case Arr(items) => exists i :: 0 <= i < |items| && Contains(items[i])
    case _ => false
  }

  // ---- nothing is lost: what comes back unedited is what was there ----

  lemma {:induction false} RoundTrip(v: Json, key: string)
    requires WellFormed(v)
    ensures Restore(Redact(v, key), v) == v
  {
    if !Hidden(v, key) {
      match v
      case Obj(fields) =>
        forall i | 0 <= i < |fields| ensures Restore(Redact(fields[i].value, fields[i].key), GetIn(v, fields[i].key)) == fields[i].value {
          GetAt(fields, i);
          RoundTrip(fields[i].value, fields[i].key);
        }
        assert Restore(Redact(v, key), v).fields == fields;
      case Arr(items) =>
        forall i | 0 <= i < |items| ensures Restore(Redact(items[i], ""), ItemIn(v, i)) == items[i] {
          RoundTrip(items[i], "");
        }
        assert Restore(Redact(v, key), v).items == items;
      case _ =>
    }
  }

  // ---- nothing is given away ----

  /** Two trees that differ only in hidden values. */
  predicate SameButHidden(v: Json, w: Json, key: string) {
    if Hidden(v, key) || v == SENTINEL then Hidden(w, key) || w == SENTINEL else
    match v
    case Obj(fields) =>
      && !Hidden(w, key) && w.Obj? && |w.fields| == |fields|
      && forall i :: 0 <= i < |fields| ==>
           fields[i].key == w.fields[i].key && SameButHidden(fields[i].value, w.fields[i].value, fields[i].key)
    case Arr(items) =>
      && !Hidden(w, key) && w.Arr? && |w.items| == |items|
      && forall i :: 0 <= i < |items| ==> SameButHidden(items[i], w.items[i], "")
    case _ => !Hidden(w, key) && v == w
  }

  lemma {:induction false} FieldsRevealNothing(v: Json, w: Json, key: string)
    requires v.Obj? && w.Obj? && |v.fields| == |w.fields| && !Hidden(v, key) && !Hidden(w, key)
    ensures Redact(v, key) == Redact(w, key) <==> SameButHidden(v, w, key)
    decreases v, 0
  {
    var fields := v.fields;
    var a, b := Redact(v, key).fields, Redact(w, key).fields;
    forall i | 0 <= i < |fields| ensures a[i] == b[i] <==>
        fields[i].key == w.fields[i].key && SameButHidden(fields[i].value, w.fields[i].value, fields[i].key) {
      if fields[i].key == w.fields[i].key { RevealsNothing(fields[i].value, w.fields[i].value, fields[i].key); }
    }
  }

  /** What a user sees tells two trees apart only if they differ outside of hidden values. */
  lemma {:induction false} RevealsNothing(v: Json, w: Json, key: string)
    ensures Redact(v, key) == Redact(w, key) <==> SameButHidden(v, w, key)
    decreases v, 1
  {
    if !(Hidden(v, key) || v == SENTINEL) && !Hidden(w, key) {
      match v
      case Obj(fields) =>
        assert w.Obj? ==> |Redact(w, key).fields| == |w.fields| && |Redact(v, key).fields| == |fields|;
        if w.Obj? && |w.fields| == |fields| { FieldsRevealNothing(v, w, key); }
      case Arr(items) =>
        assert w.Arr? ==> |Redact(w, key).items| == |w.items| && |Redact(v, key).items| == |items|;
        if w.Arr? && |w.items| == |items| { ItemsRevealNothing(v, w, key); }
      case _ =>
    }
  }

  lemma {:induction false} ItemsRevealNothing(v: Json, w: Json, key: string)
    requires v.Arr? && w.Arr? && |v.items| == |w.items| && !Hidden(v, key) && !Hidden(w, key)
    ensures Redact(v, key) == Redact(w, key) <==> SameButHidden(v, w, key)
    decreases v, 0
  {
    var a, b := Redact(v, key).items, Redact(w, key).items;
    forall i | 0 <= i < |v.items| ensures a[i] == b[i] <==> SameButHidden(v.items[i], w.items[i], "") {
      RevealsNothing(v.items[i], w.items[i], "");
    }
  }

  // ---- an edited tree: exactly the sentinels are replaced ----

  lemma {:induction false} SameFirst(fields: seq<Field>, restored: seq<Field>, existing: Json, k: string)
    requires |fields| == |restored| && k in KeySet(fields)
    requires forall i :: 0 <= i < |fields| ==>
               restored[i] == Field(fields[i].key, Restore(fields[i].value, GetIn(existing, fields[i].key)))
    ensures Get(restored, k) == Restore(Get(fields, k), GetIn(existing, k))
  {
    if fields[0].key != k {
      assert k in KeySet(fields[1..]) by {
        var f :| f in fields && f.key == k;
        assert f in fields[1..];
      }
      SameFirst(fields[1..], restored[1..], existing, k);
    }
  }

  lemma {:induction false} KeysKept(incoming: Json, existing: Json, k: string)
    requires incoming.Obj?
    ensures var r := Restore(incoming, existing);
            && r.Obj? && (k in KeySet(r.fields) <==> k in KeySet(incoming.fields))
            && (k in KeySet(incoming.fields) ==> Get(r.fields, k) == Restore(Get(incoming.fields, k), GetIn(existing, k)))
  {
    var r := Restore(incoming, existing);
    forall i | 0 <= i < |r.fields| ensures r.fields[i].key == incoming.fields[i].key {}
    if k in KeySet(r.fields) {
      var f :| f in r.fields && f.key == k;
      var i :| 0 <= i < |r.fields| && r.fields[i] == f;
      assert incoming.fields[i] in incoming.fields;
    }
    if k in KeySet(incoming.fields) {
      var f :| f in incoming.fields && f.key == k;
      var i :| 0 <= i < |incoming.fields| && incoming.fields[i] == f;
      assert r.fields[i] in r.fields;
      SameFirst(incoming.fields, r.fields, existing, k);
    }
  }

  /** At every position of an edited tree: a sentinel becomes the value the original has there and
      stays if there is none; every other value stays as the user sent it. */
  lemma {:induction false} RestoredAt(incoming: Json, existing: Json, path: seq<Step>)
    requires Exists(incoming, path)
    ensures Exists(Restore(incoming, existing), path)
    ensures At(Restore(incoming, existing), path) == Restore(At(incoming, path), At(existing, path))
    ensures At(incoming, path) == SENTINEL ==>
              At(Restore(incoming, existing), path) == if At(existing, path) == Null then SENTINEL else At(existing, path)
    ensures !At(incoming, path).Obj? && !At(incoming, path).Arr? && At(incoming, path) != SENTINEL ==>
              At(Restore(incoming, existing), path) == At(incoming, path)
    decreases |path|
  {
    if path != [] {
      match path[0]
      case Key(k) =>
        KeysKept(incoming, existing, k);
        RestoredAt(Get(incoming.fields, k), GetIn(existing, k), path[1..]);
      case Index(i) =>
        RestoredAt(incoming.items[i], ItemIn(existing, i), path[1..]);
    }
  }

  /** Some sentinel has no value to be replaced with. */
  ghost predicate Unresolved(incoming: Json, existing: Json) {
    exists path :: Exists(incoming, path) && At(incoming, path) == SENTINEL && At(existing, path) == Null
  }

  lemma {:induction false} SentinelIsContained(v: Json, path: seq<Step>)
    requires Exists(v, path) && At(v, path) == SENTINEL
    ensures Contains(v)
    decreases |path|
  {
    if path != [] {
      match path[0]
      case Key(k) =>
        SentinelIsContained(Get(v.fields, k), path[1..]);
        var i := IndexOf(v.fields, k);
      case Index(i) => SentinelIsContained(v.items[i], path[1..]);
    }
  }

  lemma PartsClean(v: Json, k: string, i: nat)
    requires !Contains(v)
    ensures !Contains(GetIn(v, k)) && !Contains(ItemIn(v, i))
  {
    if v.Obj? && k in KeySet(v.fields) {
      var j := IndexOf(v.fields, k);
    } else if v.Obj? {
      GetMissing(v.fields, k);
    }
  }

  lemma {:induction false} FindUnresolved(incoming: Json, existing: Json) returns (path: seq<Step>)
    requires WellFormed(incoming) && !Contains(existing) && Contains(Restore(incoming, existing))
    ensures Exists(incoming, path) && At(incoming, path) == SENTINEL && At(existing, path) == Null
    decreases incoming
  {
    path := [];
    if incoming != SENTINEL {
      var r := Restore(incoming, existing);
      match incoming
      case Obj(fields) =>
        var i :| 0 <= i < |fields| && Contains(r.fields[i].value);
        var k := fields[i].key;
        var sub := GetIn(existing, k);
        PartsClean(existing, k, 0);
        var rest := FindUnresolved(fields[i].value, sub);
        GetAt(fields, i);
        assert fields[i] in fields;
        path := [Key(k)] + rest;
        assert path[1..] == rest;
      case Arr(items) =>
        var i :| 0 <= i < |items| && Contains(r.items[i]);
        PartsClean(existing, "", i);
        var rest := FindUnresolved(items[i], ItemIn(existing, i));
        path := [Index(i)] + rest;
        assert path[1..] == rest;
      case _ =>
    }
  }

  /** Saving is refused, because a sentinel is left, exactly when a sentinel stands where the
      original has no value. */
  lemma LeftoversExactly(incoming: Json, existing: Json)
    requires WellFormed(incoming) && !Contains(existing)
    ensures Contains(Restore(incoming, existing)) <==> Unresolved(incoming, existing)
  {
    if Contains(Restore(incoming, existing)) {
      var path := FindUnresolved(incoming, existing);
    }
    if Unresolved(incoming, existing) {
      var path :| Exists(incoming, path) && At(incoming, path) == SENTINEL && At(existing, path) == Null;
      RestoredAt(incoming, existing, path);
      SentinelIsContained(Restore(incoming, existing), path);
    }
  }

  // ---- lists of named items ----

  /** The last of the items called `name`, if any. `render` is Python's `str` of a value. */
  function Named(items: seq<Json>, name: string, render: Json -> string): Json {
    if items == [] then Null else
    var last := items[|items| - 1];
    if last.Obj? && render(Get(last.fields, "name")) == name then last else Named(items[..|items| - 1], name, render)
  }

  /** `_restore_named_items`. */
  function RestoreNamed(incoming: seq<Json>, existing: seq<Json>, render: Json -> string): seq<Json> {
    seq(|incoming|, i requires 0 <= i < |incoming| =>
          Restore(incoming[i], Named(existing, render(GetIn(incoming[i], "name")), render)))
  }

  /** Items are objects with pairwise different names, and the names are plain strings. */
  predicate UniquelyNamed(items: seq<Json>, render: Json -> string) {
    && (forall i :: 0 <= i < |items| ==> items[i].Obj? && Get(items[i].fields, "name").Str?)
    && forall i, j :: 0 <= i < j < |items| ==> render(Get(items[i].fields, "name")) != render(Get(items[j].fields, "name"))
  }

  lemma {:induction false} NamedAt(items: seq<Json>, i: nat, render: Json -> string)
    requires UniquelyNamed(items, render) && i < |items|
    ensures Named(items, render(Get(items[i].fields, "name")), render) == items[i]
  {
    if i < |items| - 1 { NamedAt(items[..|items| - 1], i, render); }
  }

  lemma {:induction false} NamedNone(items: seq<Json>, name: string, render: Json -> string)
    requires forall i :: 0 <= i < |items| && items[i].Obj? ==> render(Get(items[i].fields, "name")) != name
    ensures Named(items, name, render) == Null
  {
    if items != [] { NamedNone(items[..|items| - 1], name, render); }
  }

  /** The order of the existing items does not matter. */
  lemma OrderIsIrrelevant(incoming: seq<Json>, existing: seq<Json>, shuffled: seq<Json>, render: Json -> string)
    requires UniquelyNamed(existing, render) && UniquelyNamed(shuffled, render)
    requires forall x :: x in existing <==> x in shuffled
    ensures RestoreNamed(incoming, existing, render) == RestoreNamed(incoming, shuffled, render)
  {
    forall i | 0 <= i < |incoming|
      ensures Named(existing, render(GetIn(incoming[i], "name")), render) == Named(shuffled, render(GetIn(incoming[i], "name")), render) {
      var name := render(GetIn(incoming[i], "name"));
      if j :| 0 <= j < |existing| && render(Get(existing[j].fields, "name")) == name {
        NamedAt(existing, j, render);
        assert existing[j] in shuffled;
        var k :| 0 <= k < |shuffled| && shuffled[k] == existing[j];
        NamedAt(shuffled, k, render);
      } else {
        NamedNone(existing, name, render);
        forall k | 0 <= k < |shuffled| ensures render(Get(shuffled[k].fields, "name")) != name {
          assert shuffled[k] in existing;
        }
        NamedNone(shuffled, name, render);
      }
    }
  }

  lemma NameIsNoSecret()
    ensures !IsSensitive("name")
  {
    var name := "name";
    assert |name| == 4 && name[0] == 'n' && name[3] == 'e' && Strip(name) == name;
    assert |Normalized(name)| == 4 && Normalized(name)[0] == 'n' && Normalized(name)[3] == 'e';
  }

  lemma {:induction false} NameSurvives(fields: seq<Field>)
    requires Get(fields, "name").Str?
    ensures Get(seq(|fields|, i requires 0 <= i < |fields| => Field(fields[i].key, Redact(fields[i].value, fields[i].key))), "name")
         == Get(fields, "name")
  {
    var redacted := seq(|fields|, i requires 0 <= i < |fields| => Field(fields[i].key, Redact(fields[i].value, fields[i].key)));
    if fields[0].key == "name" {
      NameIsNoSecret();
    } else {
      NameSurvives(fields[1..]);
      var rest := fields[1..];
      assert redacted[1..] ==
        seq(|rest|, i requires 0 <= i < |rest| => Field(rest[i].key, Redact(rest[i].value, rest[i].key)));
    }
  }

  lemma EmptyIsNoSecret()
    ensures !IsSensitive("")
  {
    assert Normalized("") == "";
  }

  /** Any selection of the existing items, in any order, comes back whole: each item is matched
      by its name. */
  lemma NamedRoundTrip(existing: seq<Json>, selection: seq<nat>, render: Json -> string)
    requires UniquelyNamed(existing, render) && (forall i :: 0 <= i < |existing| ==> WellFormed(existing[i]))
    requires forall j :: 0 <= j < |selection| ==> selection[j] < |existing|
    ensures var shown := seq(|selection|, j requires 0 <= j < |selection| => Redact(existing[selection[j]], ""));
            RestoreNamed(shown, existing, render) == seq(|selection|, j requires 0 <= j < |selection| => existing[selection[j]])
  {
    forall j | 0 <= j < |selection|
      ensures var item := Redact(existing[selection[j]], "");
              Restore(item, Named(existing, render(GetIn(item, "name")), render)) == existing[selection[j]] {
      var item := existing[selection[j]];
      EmptyIsNoSecret();
      NameSurvives(item.fields);
      NamedAt(existing, selection[j], render);
      RoundTrip(item, "");
    }
  }
}
