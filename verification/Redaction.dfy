/** Redaction of secrets in JSON values, as change requests and audit entries are stored. */
module Redaction {
  import opened Text

  datatype Json =
    | Null
    | Bool(b: bool)
    | Number(n: real)
    | Str(s: string)
    | Arr(items: seq<Json>)
    | Obj(fields: map<string, Json>)

  const MARKER := Str("[REDACTED]")

  /** `unicode.ToLower`, for the characters whose lower case is an ASCII letter. */
  function Lower(c: char): char {
    if 'A' <= c <= 'Z' then c - 'A' + 'a'
    else if c == '\U{212A}' then 'k'
    else if c == '\U{0130}' then 'i'
    else c
  }

  /** Separators removed, lower case. */
  function Normalized(key: string): string {
    if key == "" then ""
    else if key[0] in "_- " then Normalized(key[1..])
    else [Lower(key[0])] + Normalized(key[1..])
  }

  predicate Contains(s: string, t: string) {
    IsPrefix(t, s) || (s != "" && Contains(s[1..], t))
  }

  const MARKERS := ["password", "passwd", "secret", "token", "credential", "authorization", "cookie", "keytab",
                    "privatekey", "totp", "otp", "recoverycode"]

  predicate Sensitive(key: string) {
    exists i :: 0 <= i < |MARKERS| && Contains(Normalized(key), MARKERS[i])
  }

  /** Which keys are sensitive, marker by marker. */
  lemma SensitiveExactly(key: string)
    ensures var n := Normalized(key);
            Sensitive(key) <==>
              || Contains(n, "password") || Contains(n, "passwd") || Contains(n, "secret") || Contains(n, "token")
              || Contains(n, "credential") || Contains(n, "authorization") || Contains(n, "cookie") || Contains(n, "keytab")
              || Contains(n, "privatekey") || Contains(n, "totp") || Contains(n, "otp") || Contains(n, "recoverycode")
  {
    var m := MARKERS;
    assert m[0] == "password" && m[1] == "passwd" && m[2] == "secret" && m[3] == "token" && m[4] == "credential"
           && m[5] == "authorization" && m[6] == "cookie" && m[7] == "keytab" && m[8] == "privatekey" && m[9] == "totp"
           && m[10] == "otp" && m[11] == "recoverycode";
  }

  lemma {:induction false} NormalizedAppend(a: string, b: string)
    ensures Normalized(a + b) == Normalized(a) + Normalized(b)
  {
    if a == "" {
      assert a + b == b;
    } else {
      assert (a + b)[1..] == a[1..] + b;
      NormalizedAppend(a[1..], b);
    }
  }

  lemma {:induction false} ContainsPart(p: string, t: string, q: string)
    ensures Contains(p + t + q, t)
  {
    if p == "" {
      assert p + t + q == t + q;
      assert (t + q)[..|t|] == t;
    } else {
      assert (p + t + q)[1..] == p[1..] + t + q;
      ContainsPart(p[1..], t, q);
    }
  }

  /** A key with a marker anywhere in it is sensitive, however the marker is capitalised or broken up by separators. */
  lemma AnySpelling(before: string, spelled: string, after: string, i: nat)
    requires i < |MARKERS| && Normalized(spelled) == MARKERS[i]
    ensures Sensitive(before + spelled + after)
  {
    NormalizedAppend(before + spelled, after);
    NormalizedAppend(before, spelled);
    ContainsPart(Normalized(before), MARKERS[i], Normalized(after));
  }

  lemma NormalizedInside(a: string, b: string, c: string, d: string)
    requires Normalized(c) == Normalized(d)
    ensures Normalized(a + c + b) == Normalized(a + d + b)
  {
    NormalizedAppend(a + c, b);
    NormalizedAppend(a, c);
    NormalizedAppend(a + d, b);
    NormalizedAppend(a, d);
  }

  /** Underscores, hyphens and spaces do not matter, nor does the case of a letter. */
  lemma SpellingIgnored(a: string, b: string, c: char)
    ensures c in {'_', '-', ' '} ==> Normalized(a + [c] + b) == Normalized(a + b)
    ensures 'A' <= c <= 'Z' ==> Normalized(a + [c] + b) == Normalized(a + [c - 'A' + 'a'] + b)
    ensures 'a' <= c <= 'z' ==> Normalized([c]) == [c]
  {
    if c in {'_', '-', ' '} {
      NormalizedInside(a, b, [c], "");
      assert a + "" + b == a + b;
    } else if 'A' <= c <= 'Z' {
      NormalizedInside(a, b, [c], [c - 'A' + 'a']);
    }
  }

  /** `redact` of approvals and `redactAuditValue` of the audit log. */
  function Redact(j: Json): Json {
    match j
    case Arr(items) => Arr(seq(|items|, i requires 0 <= i < |items| => Redact(items[i])))
    case Obj(fields) => Obj(map k | k in fields :: if Sensitive(k) then MARKER else Redact(fields[k]))
    case _ => j
  }

  /** Redacting again changes nothing. */
  lemma {:induction false} RedactTwice(j: Json)
    ensures Redact(Redact(j)) == Redact(j)
  {
    match j
    case Arr(items) =>
      forall i | 0 <= i < |items| ensures Redact(Redact(items[i])) == Redact(items[i]) {
        RedactTwice(items[i]);
      }
      assert Redact(Redact(j)).items == Redact(j).items;
    case Obj(fields) =>
      forall k | k in fields ensures Redact(Redact(fields[k])) == Redact(fields[k]) {
        RedactTwice(fields[k]);
      }
      assert Redact(Redact(j)).fields == Redact(j).fields;
    case _ =>
  }

  /** Equal except, perhaps, for what lies under sensitive keys. */
  predicate Agree(a: Json, b: Json) {
    match a
    case Arr(items) =>
      b.Arr? && |items| == |b.items| && forall i :: 0 <= i < |items| ==> Agree(items[i], b.items[i])
    case Obj(fields) =>
      b.Obj? && fields.Keys == b.fields.Keys && forall k :: k in fields ==> Sensitive(k) || Agree(fields[k], b.fields[k])
    case _ => a == b
  }

  /** The redacted value tells exactly what is not secret: it is the same for two values that differ only in secrets. */
  lemma {:induction false} RedactHidesSecrets(a: Json, b: Json)
    ensures Redact(a) == Redact(b) <==> Agree(a, b)
  {
    if a.Arr? && b.Arr? {
      forall i | 0 <= i < |a.items| && i < |b.items| ensures Redact(a.items[i]) == Redact(b.items[i]) <==> Agree(a.items[i], b.items[i]) {
        RedactHidesSecrets(a.items[i], b.items[i]);
      }
      RedactItems(a.items, b.items);
    } else if a.Obj? && b.Obj? {
      forall k | k in a.fields && k in b.fields ensures Redact(a.fields[k]) == Redact(b.fields[k]) <==> Agree(a.fields[k], b.fields[k]) {
        RedactHidesSecrets(a.fields[k], b.fields[k]);
      }
      RedactFields(a.fields, b.fields);
    }
  }

  lemma RedactItems(a: seq<Json>, b: seq<Json>)
    ensures Redact(Arr(a)) == Redact(Arr(b))
            <==> |a| == |b| && forall i :: 0 <= i < |a| ==> Redact(a[i]) == Redact(b[i])
  {
    var x, y := Redact(Arr(a)).items, Redact(Arr(b)).items;
    if x == y {
      forall i | 0 <= i < |a| ensures Redact(a[i]) == Redact(b[i]) {
        assert x[i] == y[i];
      }
    }
  }

  lemma RedactFields(a: map<string, Json>, b: map<string, Json>)
    ensures Redact(Obj(a)) == Redact(Obj(b))
            <==> a.Keys == b.Keys && forall k :: k in a ==> Sensitive(k) || Redact(a[k]) == Redact(b[k])
  {
    var x, y := Redact(Obj(a)).fields, Redact(Obj(b)).fields;
    assert x.Keys == a.Keys && y.Keys == b.Keys;
    if x == y {
      forall k | k in a ensures Sensitive(k) || Redact(a[k]) == Redact(b[k]) {
        assert x[k] == y[k];
      }
    }
  }

  datatype Segment = Key(k: string) | Index(i: nat)

  /** The value a path leads to. */
  function At(j: Json, path: seq<Segment>): Option<Json> {
    if path == [] then Some(j)
    else match path[0]
      case Key(k) => if j.Obj? && k in j.fields then At(j.fields[k], path[1..]) else None
      case Index(i) => if j.Arr? && i < |j.items| then At(j.items[i], path[1..]) else None
  }

  predicate Open(path: seq<Segment>) {
    forall i :: 0 <= i < |path| ==> path[i].Index? || !Sensitive(path[i].k)
  }

  /** Along a path without sensitive keys the redacted value has the same places, each redacted in turn. */
  lemma {:induction false} RedactAlongPath(j: Json, path: seq<Segment>)
    requires Open(path)
    ensures At(Redact(j), path) == if At(j, path).Some? then Some(Redact(At(j, path).value)) else None
    decreases path
  {
    if path != [] {
      match path[0]
      case Key(k) =>
        if j.Obj? && k in j.fields {
          RedactAlongPath(j.fields[k], path[1..]);
        }
      case Index(i) =>
        if j.Arr? && i < |j.items| {
          RedactAlongPath(j.items[i], path[1..]);
        }
    }
  }

  lemma {:induction false} AtAppend(j: Json, path: seq<Segment>, rest: seq<Segment>)
    ensures At(j, path + rest) == if At(j, path).Some? then At(At(j, path).value, rest) else None
    decreases path
  {
    if path == [] {
      assert path + rest == rest;
    } else {
      assert (path + rest)[1..] == path[1..] + rest;
      match path[0]
      case Key(k) =>
        if j.Obj? && k in j.fields {
          AtAppend(j.fields[k], path[1..], rest);
        }
      case Index(i) =>
        if j.Arr? && i < |j.items| {
          AtAppend(j.items[i], path[1..], rest);
        }
    }
  }

  /** At the first sensitive key of a path stands the marker, and below it nothing. */
  lemma SecretsMarked(j: Json, path: seq<Segment>, k: string, rest: seq<Segment>)
    requires Open(path) && Sensitive(k)
    ensures At(Redact(j), path + [Key(k)] + rest)
            == if At(j, path + [Key(k)]).Some? && rest == [] then Some(MARKER) else None
  {
    assert path + [Key(k)] + rest == path + ([Key(k)] + rest);
    RedactAlongPath(j, path);
    AtAppend(Redact(j), path, [Key(k)] + rest);
    AtAppend(j, path, [Key(k)]);
    assert ([Key(k)] + rest)[1..] == rest;
  }
}
