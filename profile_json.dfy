/** The text stored under the "user" key: `JSON.stringify(profile)` on the way
    in and `JSON.parse(text)` on the way out. `Serialize` writes a JSON object
    with the profile's fields, leaving out the optional ones that are absent as
    `JSON.stringify` leaves out `undefined` properties. `Parse` reads that text
    back and yields `None` for anything else, which is where `JSON.parse` would
    throw. */
module ProfileJson {
  import opened Wrappers
  import opened Text
  import opened Entities

  // ---------------------------------------------------------------- writing

  /** The body of a JSON string literal: a backslash before every `"` and `\`. */
  function Escape(s: string): string {
    if s == [] then []
    else (if s[0] == '"' || s[0] == '\\' then ['\\', s[0]] else [s[0]]) + Escape(s[1..])
  }

  function Quote(s: string): string {
    "\"" + Escape(s) + "\""
  }

  /** The text that introduces the member `key` after an earlier member. */
  function MemberPrefix(key: string): string {
    ",\"" + key + "\":"
  }

  /** An optional string member: nothing at all when the value is absent. */
  function Member(key: string, v: Option<string>): string {
    match v
    case None => ""
    case Some(s) => MemberPrefix(key) + Quote(s)
  }

  function Serialize(u: User): string {
    "{\"id\":" + (IntText(u.id) +
    (",\"name\":" + (Quote(u.name) +
    (",\"email\":" + (Quote(u.email) +
    (Member("role", u.role) +
    (Member("avatarUrl", u.avatarUrl) + "}")))))))
  }

  // ---------------------------------------------------------------- reading

  /** The text after `lit`, when s starts with it. */
  function Expect(lit: string, s: string): Option<string> {
    if lit <= s then Some(s[|lit|..]) else None
  }

  /** The characters of a string literal whose opening quote has been read,
      and the text after its closing quote. */
  function ReadChars(s: string): Option<(string, string)>
    decreases |s|
  {
    if s == [] then None
    else if s[0] == '"' then Some(([], s[1..]))
    else if s[0] == '\\' then
      if |s| < 2 || !(s[1] == '"' || s[1] == '\\') then None
      else
        var p :- ReadChars(s[2..]);
        Some(([s[1]] + p.0, p.1))
    else
      var p :- ReadChars(s[1..]);
      Some(([s[0]] + p.0, p.1))
  }

  function ReadQuoted(s: string): Option<(string, string)> {
    if s != [] && s[0] == '"' then ReadChars(s[1..]) else None
  }

  /** A natural number written without leading zeros. */
  function ReadNat(s: string): Option<(nat, string)> {
    var k := LeadingDigits(s);
    if k == 0 || (s[0] == '0' && k > 1) then None
    else Some((DigitsValue(s[..k]), s[k..]))
  }

  /** An integer as `IntText` writes it (no `-0`). */
  function ReadInt(s: string): Option<(int, string)> {
    if s != [] && s[0] == '-' then
      var p :- ReadNat(s[1..]);
      var magnitude: int := p.0;
      if magnitude == 0 then None else Some((-magnitude, p.1))
    else
      var p :- ReadNat(s);
      Some((p.0 as int, p.1))
  }

  /** An optional string member: absent when the text does not introduce `key`. */
  function ReadMember(key: string, s: string): Option<(Option<string>, string)> {
    var prefix := MemberPrefix(key);
    if prefix <= s then
      var p :- ReadQuoted(s[|prefix|..]);
      Some((Some(p.0), p.1))
    else
      Some((None, s))
  }

  function Parse(s: string): Option<User> {
    var r0 :- Expect("{\"id\":", s);
    var id :- ReadInt(r0);
    var r1 :- Expect(",\"name\":", id.1);
    var name :- ReadQuoted(r1);
    var r2 :- Expect(",\"email\":", name.1);
    var email :- ReadQuoted(r2);
    var role :- ReadMember("role", email.1);
    var avatar :- ReadMember("avatarUrl", role.1);
    if avatar.1 == "}" then Some(User(id.0, name.0, email.0, role.0, avatar.0)) else None
  }

  // ---------------------------------------------------------------- round trip

  lemma ExpectLiteral(lit: string, rest: string)
    ensures Expect(lit, lit + rest) == Some(rest)
  {
    assert (lit + rest)[|lit|..] == rest;
  }

  lemma {:induction false} ReadCharsOfEscape(t: string, rest: string)
    ensures ReadChars(Escape(t) + ("\"" + rest)) == Some((t, rest))
    decreases |t|
  {
    var s := Escape(t) + ("\"" + rest);
    if t == [] {
      assert s == "\"" + rest;
      assert s[1..] == rest;
    } else {
      var head := if t[0] == '"' || t[0] == '\\' then ['\\', t[0]] else [t[0]];
      assert s == head + (Escape(t[1..]) + ("\"" + rest));
      ReadCharsOfEscape(t[1..], rest);
      assert [t[0]] + t[1..] == t;
      if t[0] == '"' || t[0] == '\\' {
        assert s[2..] == Escape(t[1..]) + ("\"" + rest);
      } else {
        assert s[1..] == Escape(t[1..]) + ("\"" + rest);
      }
    }
  }

  lemma ReadQuotedOfQuote(t: string, rest: string)
    ensures ReadQuoted(Quote(t) + rest) == Some((t, rest))
  {
    var s := Quote(t) + rest;
    assert s[1..] == Escape(t) + ("\"" + rest);
    ReadCharsOfEscape(t, rest);
  }

  lemma ReadNatOfText(n: nat, rest: string)
    requires rest == [] || !IsDigit(rest[0])
    ensures ReadNat(NatText(n) + rest) == Some((n, rest))
  {
    var d := NatText(n);
    var s := d + rest;
    LeadingDigitsOfRun(d, rest);
    assert s[..|d|] == d && s[|d|..] == rest;
    DigitsValueOfNatText(n);
  }

  lemma ReadIntOfText(i: int, rest: string)
    requires rest == [] || !IsDigit(rest[0])
    ensures ReadInt(IntText(i) + rest) == Some((i, rest))
  {
    if i < 0 {
      ReadIntOfNegative(-i, rest);
    } else {
      ReadIntOfNatural(i, rest);
    }
  }

  lemma ReadIntOfNegative(n: nat, rest: string)
    requires n > 0
    requires rest == [] || !IsDigit(rest[0])
    ensures ReadInt("-" + NatText(n) + rest) == Some((-(n as int), rest))
  {
    var s := "-" + NatText(n) + rest;
    assert s[1..] == NatText(n) + rest;
    ReadNatOfText(n, rest);
  }

  lemma ReadIntOfNatural(n: nat, rest: string)
    requires rest == [] || !IsDigit(rest[0])
    ensures ReadInt(NatText(n) + rest) == Some((n, rest))
  {
    var s := NatText(n) + rest;
    assert s[0] == NatText(n)[0];
    ReadNatOfText(n, rest);
  }

  lemma ReadMemberOfText(key: string, v: Option<string>, rest: string)
    requires v.None? ==> !(MemberPrefix(key) <= rest)
    ensures ReadMember(key, Member(key, v) + rest) == Some((v, rest))
  {
    if v.Some? {
      var prefix := MemberPrefix(key);
      var s := Member(key, v) + rest;
      assert s == prefix + (Quote(v.value) + rest);
      assert s[|prefix|..] == Quote(v.value) + rest;
      ReadQuotedOfQuote(v.value, rest);
    } else {
      assert Member(key, v) + rest == rest;
    }
  }

  /** What `Serialize` writes, `Parse` reads back as the same profile. */
  lemma ParseSerialize(u: User)
    ensures Parse(Serialize(u)) == Some(u)
  {
    var tail5 := Member("avatarUrl", u.avatarUrl) + "}";
    var tail4 := Member("role", u.role) + tail5;
    var tail3 := ",\"email\":" + (Quote(u.email) + tail4);
    var tail1 := ",\"name\":" + (Quote(u.name) + tail3);
    ExpectLiteral("{\"id\":", IntText(u.id) + tail1);
    ReadIntOfText(u.id, tail1);
    ExpectLiteral(",\"name\":", Quote(u.name) + tail3);
    ReadQuotedOfQuote(u.name, tail3);
    ExpectLiteral(",\"email\":", Quote(u.email) + tail4);
    ReadQuotedOfQuote(u.email, tail4);
    if u.avatarUrl.Some? {
      assert tail5[2] == 'a' && MemberPrefix("role")[2] == 'r';
    } else {
      assert tail5 == "}";
    }
    ReadMemberOfText("role", u.role, tail5);
    assert MemberPrefix("avatarUrl")[0] == ',' && "}"[0] == '}';
    ReadMemberOfText("avatarUrl", u.avatarUrl, "}");
  }

  /** Two profiles with the same stored text are the same profile. */
  lemma SerializeInjective(u: User, v: User)
    requires Serialize(u) == Serialize(v)
    ensures u == v
  {
    ParseSerialize(u);
    ParseSerialize(v);
  }
  // ---------------------------------------------------------------- nothing else parses

  lemma ExpectSplits(lit: string, s: string)
    requires Expect(lit, s).Some?
    ensures s == lit + Expect(lit, s).value
  {
    assert s == s[..|lit|] + s[|lit|..];
  }

  lemma {:induction false} ReadCharsSplits(s: string)
    requires ReadChars(s).Some?
    ensures s == Escape(ReadChars(s).value.0) + ("\"" + ReadChars(s).value.1)
    decreases |s|
  {
    var p := ReadChars(s).value;
    if s[0] == '"' {
      assert p.0 == [];
      assert s == [s[0]] + s[1..];
    } else if s[0] == '\\' {
      ReadCharsSplits(s[2..]);
      var q := ReadChars(s[2..]).value;
      assert p.0 == [s[1]] + q.0 && p.1 == q.1;
      assert p.0[0] == s[1] && p.0[1..] == q.0;
      assert s == [s[0], s[1]] + s[2..];
    } else {
      ReadCharsSplits(s[1..]);
      var q := ReadChars(s[1..]).value;
      assert p.0 == [s[0]] + q.0 && p.1 == q.1;
      assert p.0[0] == s[0] && p.0[1..] == q.0;
      assert s == [s[0]] + s[1..];
    }
  }

  lemma ReadQuotedSplits(s: string)
    requires ReadQuoted(s).Some?
    ensures s == Quote(ReadQuoted(s).value.0) + ReadQuoted(s).value.1
  {
    ReadCharsSplits(s[1..]);
    assert s == [s[0]] + s[1..];
  }

  /** A digit string with a non-zero leading digit has a positive value. */
  lemma {:induction false} LeadingNonZeroPositive(d: string)
    requires |d| > 0 && AllDigits(d) && d[0] != '0'
    ensures DigitsValue(d) > 0
    decreases |d|
  {
    if |d| > 1 {
      LeadingNonZeroPositive(d[..|d| - 1]);
    }
  }

  /** Dividing `m * 10 + k` by ten splits off the last digit `k`. */
  lemma DecimalStep(m: nat, k: nat)
    requires k < 10
    ensures (m * 10 + k) / 10 == m && (m * 10 + k) % 10 == k
  {
  }

  /** A digit string without a superfluous leading zero is how `NatText` writes its value. */
  lemma {:induction false} NatTextOfDigits(d: string)
    requires |d| > 0 && AllDigits(d) && (d[0] == '0' ==> |d| == 1)
    ensures NatText(DigitsValue(d)) == d
    decreases |d|
  {
    var n := DigitsValue(d);
    if |d| == 1 {
      assert d[..|d| - 1] == [];
      assert n == DigitValue(d[0]) && n < 10;
      assert d == [DigitChar(n)];
    } else {
      var front := d[..|d| - 1];
      var last := d[|d| - 1];
      NatTextOfDigits(front);
      LeadingNonZeroPositive(front);
      var m, k := DigitsValue(front), DigitValue(last);
      assert n == m * 10 + k;
      DecimalStep(m, k);
      assert NatText(n) == NatText(m) + [DigitChar(k)];
      assert DigitChar(k) == last;
      assert d == front + [last];
    }
  }

  lemma ReadNatSplits(s: string)
    requires ReadNat(s).Some?
    ensures s == NatText(ReadNat(s).value.0) + ReadNat(s).value.1
  {
    var k := LeadingDigits(s);
    NatTextOfDigits(s[..k]);
    assert s == s[..k] + s[k..];
  }

  lemma ReadIntSplits(s: string)
    requires ReadInt(s).Some?
    ensures s == IntText(ReadInt(s).value.0) + ReadInt(s).value.1
  {
    if s[0] == '-' {
      ReadNatSplits(s[1..]);
      assert s == "-" + s[1..];
    } else {
      ReadNatSplits(s);
    }
  }

  lemma ReadMemberSplits(key: string, s: string)
    requires ReadMember(key, s).Some?
    ensures s == Member(key, ReadMember(key, s).value.0) + ReadMember(key, s).value.1
  {
    var prefix := MemberPrefix(key);
    if prefix <= s {
      ReadQuotedSplits(s[|prefix|..]);
      assert s == prefix + s[|prefix|..];
    }
  }

  /** `Parse` accepts only what `Serialize` writes. */
  lemma ParseOnlySerialized(s: string)
    requires Parse(s).Some?
    ensures s == Serialize(Parse(s).value)
  {
    ExpectSplits("{\"id\":", s);
    var r0 := Expect("{\"id\":", s).value;
    ReadIntSplits(r0);
    var id := ReadInt(r0).value;
    ExpectSplits(",\"name\":", id.1);
    var r1 := Expect(",\"name\":", id.1).value;
    ReadQuotedSplits(r1);
    var name := ReadQuoted(r1).value;
    ExpectSplits(",\"email\":", name.1);
    var r2 := Expect(",\"email\":", name.1).value;
    ReadQuotedSplits(r2);
    var email := ReadQuoted(r2).value;
    ReadMemberSplits("role", email.1);
    var role := ReadMember("role", email.1).value;
    ReadMemberSplits("avatarUrl", role.1);
  }

  /** The stored text and the profile determine each other. */
  lemma ParseIffSerialized(s: string, u: User)
    ensures Parse(s) == Some(u) <==> s == Serialize(u)
  {
    if Parse(s) == Some(u) {
      ParseOnlySerialized(s);
    }
    if s == Serialize(u) {
      ParseSerialize(u);
    }
  }
}
