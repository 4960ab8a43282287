/**
  A stand-in for `JSON.stringify` / `JSON.parse` as the session store uses them:
  the profile is written as a JSON object of string members, `null` stands for
  no profile, and reading back what was written returns the same value.
  Strings escape only `"` and `\`.
 */
module Json {
  import opened Common
  import opened ApiTypes

  /** `JSON.parse` throws on text it cannot read. */
  datatype ParseError = SyntaxError

  const NullText := "null"

  // ----- writing -----

  /** The body of a string literal: every `"` and `\` is preceded by `\`. */
  function Escape(s: string): string
  {
    if s == [] then []
    else (if s[0] == '"' || s[0] == '\\' then ['\\', s[0]] else [s[0]]) + Escape(s[1..])
  }

  function Quote(s: string): string
  {
    "\"" + Escape(s) + "\""
  }

  function EncodeMember(m: Member): string
  {
    Quote(m.key) + ":" + Quote(m.value)
  }

  /** Members separated by commas. */
  function EncodeMembers(ms: seq<Member>): string
    requires |ms| > 0
  {
    EncodeMember(ms[0]) + (if |ms| == 1 then "" else "," + EncodeMembers(ms[1..]))
  }

  function EncodeObject(ms: seq<Member>): string
  {
    "{" + (if ms == [] then "" else EncodeMembers(ms)) + "}"
  }

  /** `JSON.stringify` of a nullable profile. */
  function Encode(u: Option<UserInfo>): string
  {
    match u
    case None => NullText
    case Some(info) => EncodeObject(info.members)
  }

  // ----- reading -----

  /**
    Reads a string literal whose opening quote has been consumed: yields the
    unescaped text and what follows the closing quote.
   */
  function ReadStringBody(t: string): (r: Option<(string, string)>)
    ensures r.Some? ==> |r.value.1| < |t|
    decreases |t|
  {
    if t == [] then None
    else if t[0] == '"' then Some(([], t[1..]))
    else if t[0] == '\\' then
      if |t| < 2 || !(t[1] == '"' || t[1] == '\\') then None
      else
        match ReadStringBody(t[2..])
        case None => None
        case Some(p) => Some(([t[1]] + p.0, p.1))
    else
      match ReadStringBody(t[1..])
      case None => None
      case Some(p) => Some(([t[0]] + p.0, p.1))
  }

  function ReadString(t: string): (r: Option<(string, string)>)
    ensures r.Some? ==> |r.value.1| < |t|
  {
    if t != [] && t[0] == '"' then ReadStringBody(t[1..]) else None
  }

  function ReadMember(t: string): (r: Option<(Member, string)>)
    ensures r.Some? ==> |r.value.1| < |t|
  {
    match ReadString(t)
    case None => None
    case Some(k) =>
      if k.1 == [] || k.1[0] != ':' then None
      else
        match ReadString(k.1[1..])
        case None => None
        case Some(v) => Some((Member(k.0, v.0), v.1))
  }

  /** Reads `member (, member)* }` and yields the members and what follows the brace. */
  function ReadMembers(t: string): (r: Option<(seq<Member>, string)>)
    ensures r.Some? ==> |r.value.1| < |t|
    decreases |t|
  {
    match ReadMember(t)
    case None => None
    case Some(m) =>
      if m.1 == [] then None
      else if m.1[0] == '}' then Some(([m.0], m.1[1..]))
      else if m.1[0] == ',' then
        match ReadMembers(m.1[1..])
        case None => None
        case Some(more) => Some(([m.0] + more.0, more.1))
      else None
  }

  function ReadObject(t: string): Option<(seq<Member>, string)>
  {
    if t == [] || t[0] != '{' then None
    else if |t| >= 2 && t[1] == '}' then Some(([], t[2..]))
    else ReadMembers(t[1..])
  }

  /** `JSON.parse` of a stored profile: `null`, or an object and nothing after it. */
  function Decode(text: string): Result<Option<UserInfo>, ParseError>
  {
    if text == NullText then Success(None)
    else
      match ReadObject(text)
      case Some(p) =>
        if p.1 == [] then Success(Some(UserInfo(p.0))) else Failure(SyntaxError)
      case None => Failure(SyntaxError)
  }

  // ----- round trip -----

  lemma {:induction false} ReadEscaped(s: string, rest: string)
    ensures ReadStringBody(Escape(s) + "\"" + rest) == Some((s, rest))
    decreases |s|
  {
    if s == [] {
      assert Escape(s) + "\"" + rest == "\"" + rest;
    } else {
      var head := if s[0] == '"' || s[0] == '\\' then ['\\', s[0]] else [s[0]];
      var tail := Escape(s[1..]) + "\"" + rest;
      assert Escape(s) + "\"" + rest == head + tail;
      ReadEscaped(s[1..], rest);
      if s[0] == '"' || s[0] == '\\' {
        assert (head + tail)[2..] == tail;
      } else {
        assert (head + tail)[1..] == tail;
      }
      assert [s[0]] + s[1..] == s;
    }
  }

  lemma ReadQuoted(s: string, rest: string)
    ensures ReadString(Quote(s) + rest) == Some((s, rest))
  {
    var t := Quote(s) + rest;
    assert t[1..] == Escape(s) + "\"" + rest;
    ReadEscaped(s, rest);
  }

  lemma ReadEncodedMember(m: Member, rest: string)
    ensures ReadMember(EncodeMember(m) + rest) == Some((m, rest))
  {
    var afterKey := ":" + Quote(m.value) + rest;
    assert EncodeMember(m) + rest == Quote(m.key) + afterKey;
    ReadQuoted(m.key, afterKey);
    assert afterKey[1..] == Quote(m.value) + rest;
    ReadQuoted(m.value, rest);
  }

  lemma {:induction false} ReadEncodedMembers(ms: seq<Member>, rest: string)
    requires |ms| > 0
    ensures ReadMembers(EncodeMembers(ms) + "}" + rest) == Some((ms, rest))
    decreases |ms|
  {
    var t := EncodeMembers(ms) + "}" + rest;
    if |ms| == 1 {
      var after := "}" + rest;
      assert t == EncodeMember(ms[0]) + after;
      ReadEncodedMember(ms[0], after);
      assert after[0] == '}' && after[1..] == rest;
      assert ReadMembers(t) == Some(([ms[0]], rest));
      assert [ms[0]] == ms;
    } else {
      var inner := EncodeMembers(ms[1..]) + "}" + rest;
      var after := "," + inner;
      assert t == EncodeMember(ms[0]) + after;
      ReadEncodedMember(ms[0], after);
      assert after[0] == ',' && after[1..] == inner;
      ReadEncodedMembers(ms[1..], rest);
      assert ReadMembers(t) == Some(([ms[0]] + ms[1..], rest));
      assert [ms[0]] + ms[1..] == ms;
    }
  }

  lemma EncodedMembersStartWithQuote(ms: seq<Member>)
    requires |ms| > 0
    ensures EncodeMembers(ms)[0] == '"'
  {
  }

  lemma ReadEncodedObject(ms: seq<Member>)
    ensures ReadObject(EncodeObject(ms)) == Some((ms, []))
  {
    var t := EncodeObject(ms);
    if ms != [] {
      EncodedMembersStartWithQuote(ms);
      assert t[0] == '{' && t[1] == '"';
      var empty: string := [];
      assert t == "{" + (EncodeMembers(ms) + "}" + empty);
      assert t[1..] == EncodeMembers(ms) + "}" + empty;
      ReadEncodedMembers(ms, empty);
      assert ReadMembers(t[1..]) == Some((ms, empty));
    } else {
      assert t == "{}";
      assert |t| >= 2 && t[1] == '}' && t[2..] == [];
    }
  }

  /** Reading back what `Encode` wrote gives the same nullable profile. */
  lemma DecodeEncode(u: Option<UserInfo>)
    ensures Decode(Encode(u)) == Success(u)
  {
    if u.Some? {
      ReadEncodedObject(u.value.members);
      assert Encode(u)[0] == '{';
    }
  }

  /** A written profile is never confused with the `null` text. */
  lemma EncodeDistinguishesNull(u: Option<UserInfo>)
    ensures Encode(u) == NullText <==> u.None?
  {
  }
}
