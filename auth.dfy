/**
 * The pure part of src/lib/auth.ts: reading the `session` cookie out of a
 * Cookie header, the identity projected from a session, the admin test, and
 * the password hash stand-in used by the login and user routes.
 */
module Auth {
  import opened Wrappers
  import opened Text

  /** `[key, ...v] = part.trim().split("=")` then `[key, v.join("=")]`. */
  function CookiePair(part: string): (kv: (string, string))
    ensures '=' !in kv.0
  {
    var pieces := Split(Trim(part), '=');
    (pieces[0], Join(pieces[1..], '='))
  }

  /** `Object.fromEntries(entries)[k]`: the value of the LAST entry with key `k`. */
  function LookupLast(entries: seq<(string, string)>, k: string): (r: Option<string>)
    ensures r.None? <==> forall i :: 0 <= i < |entries| ==> entries[i].0 != k
    ensures r.Some? ==> exists i :: 0 <= i < |entries| && entries[i] == (k, r.value)
                          && forall j :: i < j < |entries| ==> entries[j].0 != k
  {
    if entries == [] then None
    else if entries[|entries| - 1].0 == k then Some(entries[|entries| - 1].1)
    else LookupLast(entries[..|entries| - 1], k)
  }

  /** The key/value pairs of a Cookie header, in order. */
  function CookieEntries(header: string): (r: seq<(string, string)>)
    ensures |r| == |Split(header, ';')|
  {
    var parts := Split(header, ';');
    seq(|parts|, i requires 0 <= i < |parts| => CookiePair(parts[i]))
  }

  /** `extractSessionToken`: the `session` cookie's value, if the header has one. */
  function ExtractSessionToken(header: Option<string>): (token: Option<string>)
    ensures header.None? || header.value == "" ==> token.None?
  {
    if header.None? || header.value == "" then None
    else LookupLast(CookieEntries(header.value), "session")
  }

  /** A `;`-separated part is cut at its first `=`; the value keeps any later `=`. */
  lemma CookiePairFirstEquals(k: string, v: string)
    requires '=' !in k
    requires NoEdgeSpace(k + "=" + v)
    ensures CookiePair(k + "=" + v) == (k, v)
  {
    var part := k + "=" + v;
    TrimIdentity(part);
    assert part == k + ['='] + v;
    SplitCons(k, '=', v);
    JoinSplit(v, '=');
  }

  /** A separator-free tail is cut off as the last piece. */
  lemma {:induction false} SplitSnoc(a: string, sep: char, b: string)
    requires sep !in b
    ensures Split(a + [sep] + b, sep) == Split(a, sep) + [b]
    decreases |a|
  {
    var s := a + [sep] + b;
    if a == [] {
      assert s[1..] == b;
      SplitNoSep(b, sep);
    } else {
      assert s[1..] == a[1..] + [sep] + b;
      SplitSnoc(a[1..], sep, b);
    }
  }

  /**
   * With several `session` cookies the last one wins: whatever precedes it, a
   * header ending in `;session=<v>` yields `v`, including any `=` inside `v`.
   */
  lemma LastSessionCookieWins(prefix: string, v: string)
    requires ';' !in v
    requires v == [] || !IsSpace(v[|v| - 1])
    ensures ExtractSessionToken(Some(prefix + ";session=" + v)) == Some(v)
  {
    LastPart(prefix, v);
    SessionPair(v);
    LastEntry(prefix + ";session=" + v, "session=" + v);
  }

  /** The last entry of a header is the pair of its last part. */
  lemma LastEntry(header: string, part: string)
    requires |Split(header, ';')| >= 1 && Split(header, ';')[|Split(header, ';')| - 1] == part
    ensures |CookieEntries(header)| >= 1 && CookieEntries(header)[|CookieEntries(header)| - 1] == CookiePair(part)
  {
    var n := |Split(header, ';')| - 1;
    EntryAt(header, n);
  }

  /** Entry `i` of a header is the pair of its part `i`. */
  lemma EntryAt(header: string, i: int)
    requires 0 <= i < |Split(header, ';')|
    ensures CookieEntries(header)[i] == CookiePair(Split(header, ';')[i])
  {
  }

  /** The last `;`-separated part of `<prefix>;session=<v>` is `session=<v>`. */
  lemma LastPart(prefix: string, v: string)
    requires ';' !in v
    ensures var parts := Split(prefix + ";session=" + v, ';');
            |parts| >= 1 && parts[|parts| - 1] == "session=" + v
  {
    var last := "session=" + v;
    assert prefix + ";session=" + v == prefix + [';'] + last;
    SessionFree(v);
    SplitSnoc(prefix, ';', last);
  }

  lemma SessionFree(v: string)
    requires ';' !in v
    ensures ';' !in "session=" + v
  {
    var h := "session=" + v;
    assert forall i :: 0 <= i < 8 ==> h[i] != ';';
    assert forall i :: 8 <= i < |h| ==> h[i] == v[i - 8];
  }

  /** The part `session=<v>` is the pair (`session`, `v`). */
  lemma SessionPair(v: string)
    requires v == [] || !IsSpace(v[|v| - 1])
    ensures CookiePair("session=" + v) == ("session", v)
  {
    assert "session=" + v == "session" + "=" + v;
    CookiePairFirstEquals("session", v);
  }

  /** A header that is just `session=<v>` yields `v`. */
  lemma OnlySessionCookie(v: string)
    requires ';' !in v
    requires v == [] || !IsSpace(v[|v| - 1])
    ensures ExtractSessionToken(Some("session=" + v)) == Some(v)
  {
    SessionFree(v);
    SplitNoSep("session=" + v, ';');
    SessionPair(v);
  }

  /** A header whose parts have no `session` key yields no token. */
  lemma NoSessionKeyNoToken(header: string)
    requires forall i :: 0 <= i < |Split(header, ';')| ==> CookiePair(Split(header, ';')[i]).0 != "session"
    ensures ExtractSessionToken(Some(header)) == None
  {
    var entries := CookieEntries(header);
    assert forall i :: 0 <= i < |entries| ==> entries[i].0 != "session";
  }

  /** The identity a resolved session carries: id, username, name and role, and no password. */
  datatype PublicUser = PublicUser(id: int, username: string, name: string, role: string)

  /** What `getServerSession` returns. */
  datatype SessionInfo = SessionInfo(user: PublicUser)

  /** `user.role === "ADMIN" || user.role === "SUPERADMIN"`. */
  predicate IsAdminRole(role: string) {
    role == "ADMIN" || role == "SUPERADMIN"
  }

  /**
   * The one-way password transform. bcrypt's salted hash is replaced by a
   * deterministic stand-in that is injective and never equals its input.
   */
  function Hash(password: string): (h: string)
    ensures h != password && |h| > |password|
  {
    "$2b$10$" + password
  }

  /** `bcrypt.compare(password, hash)`. */
  predicate Compare(password: string, hash: string) {
    hash == Hash(password)
  }

  /** Comparing a password with its own hash succeeds, and only its own hash. */
  lemma CompareHash(p: string, q: string)
    ensures Compare(p, Hash(p))
    ensures Compare(q, Hash(p)) ==> p == q
  {
    if Compare(q, Hash(p)) {
      assert Hash(p)[7..] == p && Hash(q)[7..] == q;
    }
  }
}
