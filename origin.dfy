/**
 * The origin check run before every route (`validateOrigin` and the security
 * middleware of `createStreamableHttpServer`).
 */
module Origin {
  import opened Wrappers

  /** The allow-list used when `ALLOWED_ORIGINS` is not set. */
  const DefaultAllowedOrigins: seq<string> := ["http://localhost:3000", "http://127.0.0.1:3000"]

  /** `String.prototype.split` with a one-character separator. */
  function Split(s: string, sep: char): (parts: seq<string>)
    ensures |parts| >= 1
    ensures forall i :: 0 <= i < |parts| ==> sep !in parts[i]
  {
    if s == [] then [[]]
    else
      var rest := Split(s[1..], sep);
      if s[0] == sep then [[]] + rest
      else [[s[0]] + rest[0]] + rest[1..]
  }

  /** `Array.prototype.join` with a one-character separator. */
  function Join(parts: seq<string>, sep: char): string
    requires |parts| >= 1
  {
    if |parts| == 1 then parts[0] else parts[0] + [sep] + Join(parts[1..], sep)
  }

  /** Splitting loses nothing: joining the pieces restores the string. */
  lemma {:induction false} JoinSplit(s: string, sep: char)
    ensures Join(Split(s, sep), sep) == s
  {
    if s != [] {
      var rest := Split(s[1..], sep);
      JoinSplit(s[1..], sep);
      if s[0] == sep {
        assert ([[]] + rest)[1..] == rest;
      } else if |rest| > 1 {
        var parts := [[s[0]] + rest[0]] + rest[1..];
        assert parts[1..] == rest[1..];
      }
    }
  }

  lemma SplitCons(c: char, s: string, sep: char)
    ensures Split([c] + s, sep) ==
              if c == sep then [[]] + Split(s, sep)
              else [[c] + Split(s, sep)[0]] + Split(s, sep)[1..]
  {
  }

  lemma {:induction false} SplitSepFreePrefix(a: string, t: string, sep: char)
    requires sep !in a
    ensures Split(a + t, sep) == [a + Split(t, sep)[0]] + Split(t, sep)[1..]
  {
    var st := Split(t, sep);
    if a == [] {
      assert a + t == t && a + st[0] == st[0];
      assert [st[0]] + st[1..] == st;
    } else {
      SplitSepFreePrefix(a[1..], t, sep);
      var rest := Split(a[1..] + t, sep);
      assert rest[0] == a[1..] + st[0] && rest[1..] == st[1..];
      assert a + t == [a[0]] + (a[1..] + t);
      SplitCons(a[0], a[1..] + t, sep);
      assert [a[0]] + (a[1..] + st[0]) == a + st[0];
    }
  }

  /** Splitting a join of separator-free pieces gives back exactly those pieces. */
  lemma {:induction false} SplitJoin(parts: seq<string>, sep: char)
    requires |parts| >= 1
    requires forall i :: 0 <= i < |parts| ==> sep !in parts[i]
    ensures Split(Join(parts, sep), sep) == parts
  {
    if |parts| == 1 {
      SplitSepFreePrefix(parts[0], [], sep);
      assert parts[0] + [] == parts[0];
    } else {
      var tail := Join(parts[1..], sep);
      SplitJoin(parts[1..], sep);
      SplitCons(sep, tail, sep);
      var st := Split([sep] + tail, sep);
      assert st == [[]] + parts[1..];
      assert st[0] == [] && st[1..] == parts[1..];
      SplitSepFreePrefix(parts[0], [sep] + tail, sep);
      assert Join(parts, sep) == parts[0] + ([sep] + tail);
      assert parts[0] + st[0] == parts[0];
      assert [parts[0]] + parts[1..] == parts;
    }
  }

  /**
   * `process.env.ALLOWED_ORIGINS?.split(",") || [defaults]`: an array is always
   * truthy, so the defaults apply only when the variable is unset; a set but
   * empty variable gives `[""]`.
   */
  function AllowedOrigins(env: Option<string>): (list: seq<string>)
    ensures |list| >= 1
    ensures forall i :: 0 <= i < |list| ==> ',' !in list[i]
    ensures env.None? ==> list == DefaultAllowedOrigins
    ensures env.Some? ==> Join(list, ',') == env.value
  {
    match env
    case None => DefaultAllowedOrigins
    case Some(v) => JoinSplit(v, ','); Split(v, ',')
  }

  /**
   * `validateOrigin`: a missing or empty `origin` header passes; any other value
   * passes only if it is literally an element of the allow-list.
   */
  function ValidateOrigin(origin: Option<string>, env: Option<string>): (ok: bool)
    ensures origin.None? || origin == Some("") ==> ok
    ensures origin.Some? && origin.value != "" && ',' in origin.value ==> !ok
    ensures env.None? && origin.Some? && origin.value != "" ==>
              (ok <==> origin.value == "http://localhost:3000" || origin.value == "http://127.0.0.1:3000")
  {
    match origin
    case None => true
    case Some(o) => o == "" || o in AllowedOrigins(env)
  }

  /**
   * With `ALLOWED_ORIGINS` set to a comma-separated list, a non-empty origin is
   * accepted exactly when it is one of the listed entries, character for
   * character.
   */
  lemma AcceptsExactlyListed(entries: seq<string>, o: string)
    requires |entries| >= 1
    requires forall i :: 0 <= i < |entries| ==> ',' !in entries[i]
    requires o != ""
    ensures ValidateOrigin(Some(o), Some(Join(entries, ','))) <==> o in entries
  {
    SplitJoin(entries, ',');
  }
}
