/**
 * `JSON.stringify` of a flat object whose members are all strings, as the
 * login screen uses it for the session record, and a parser for exactly
 * that shape. The parser is the encoder's inverse: what was stored can be
 * read back member for member.
 */
module Json {
  import opened Wrappers

  /** A lower-case hexadecimal digit. */
  function HexDigit(n: nat): (c: char)
    requires n < 16
    ensures IsHexDigit(c) && HexValue(c) == n
  {
    if n < 10 then ('0' as int + n) as char else ('a' as int + n - 10) as char
  }

  predicate IsHexDigit(c: char) {
    ('0' <= c <= '9') || ('a' <= c <= 'f') || ('A' <= c <= 'F')
  }

  function HexValue(c: char): (v: nat)
    requires IsHexDigit(c)
    ensures v < 16
  {
    if '0' <= c <= '9' then c as int - '0' as int
    else if 'a' <= c <= 'f' then c as int - 'a' as int + 10
    else c as int - 'A' as int + 10
  }

  /** How one character is written inside a JSON string literal (QuoteJSONString). */
  function EscapeChar(c: char): seq<char> {
    if c == '"' then ['\\', '"']
    else if c == '\\' then ['\\', '\\']
    else if c == '\U{0008}' then ['\\', 'b']
    else if c == '\U{000C}' then ['\\', 'f']
    else if c == '\n' then ['\\', 'n']
    else if c == '\r' then ['\\', 'r']
    else if c == '\t' then ['\\', 't']
    else if (c as int) < 0x20 then ['\\', 'u', '0', '0', HexDigit((c as int) / 16), HexDigit((c as int) % 16)]
    else [c]
  }

  function Escape(s: string): string {
    if s == [] then [] else EscapeChar(s[0]) + Escape(s[1..])
  }

  /** A JSON string literal. */
  function Quote(s: string): string {
    "\"" + Escape(s) + "\""
  }

  /** The character a two-character escape `\e` stands for. */
  function Unescape(e: char): Option<char> {
    if e == '"' then Some('"')
    else if e == '\\' then Some('\\')
    else if e == '/' then Some('/')
    else if e == 'b' then Some('\U{0008}')
    else if e == 'f' then Some('\U{000C}')
    else if e == 'n' then Some('\n')
    else if e == 'r' then Some('\r')
    else if e == 't' then Some('\t')
    else None
  }

  /**
   * Reads the rest of a string literal whose opening quote is already
   * consumed: the decoded text and what follows the closing quote.
   * Surrogate escapes (`\uD800` to `\uDFFF`) are refused.
   */
  function ParseString(t: string): (r: Option<(string, string)>)
    ensures r.Some? ==> |r.value.1| < |t|
    decreases |t|
  {
    if t == [] then None
    else if t[0] == '"' then Some(([], t[1..]))
    else if t[0] == '\\' then
      if |t| < 2 then None
      else if t[1] == 'u' then
        if |t| < 6 || !IsHexDigit(t[2]) || !IsHexDigit(t[3]) || !IsHexDigit(t[4]) || !IsHexDigit(t[5]) then None
        else
          var n := 4096 * HexValue(t[2]) + 256 * HexValue(t[3]) + 16 * HexValue(t[4]) + HexValue(t[5]);
          if 0xD800 <= n < 0xE000 then None
          else match ParseString(t[6..])
            case None => None
            case Some((s, rest)) => Some(([n as char] + s, rest))
      else match Unescape(t[1])
        case None => None
        case Some(c) =>
          match ParseString(t[2..])
          case None => None
          case Some((s, rest)) => Some(([c] + s, rest))
    else if (t[0] as int) < 0x20 then None
    else match ParseString(t[1..])
      case None => None
      case Some((s, rest)) => Some(([t[0]] + s, rest))
  }

  /** A control character with no short escape is written `\u00XX`, and that reads back as it. */
  lemma {:induction false} ControlEscapeRoundTrip(c: char, tail: string)
    requires c != '\U{0008}' && c != '\U{000C}' && c != '\n' && c != '\r' && c != '\t' && (c as int) < 0x20
    ensures ParseString(EscapeChar(c) + tail) ==
              match ParseString(tail)
              case None => None
              case Some((s, rest)) => Some(([c] + s, rest))
  {
    var n := c as int;
    var t := EscapeChar(c) + tail;
    assert EscapeChar(c) == ['\\', 'u', '0', '0', HexDigit(n / 16), HexDigit(n % 16)];
    assert t[0] == '\\' && t[1] == 'u' && |t| >= 6;
    assert t[2..6] == ['0', '0', HexDigit(n / 16), HexDigit(n % 16)];
    assert t[6..] == tail;
    assert 4096 * HexValue(t[2]) + 256 * HexValue(t[3]) + 16 * HexValue(t[4]) + HexValue(t[5]) == n;
    assert (n as char) == c;
  }

  /** Reading one escaped character back yields that character ahead of whatever the tail reads as. */
  lemma {:induction false} EscapeCharRoundTrip(c: char, tail: string)
    ensures ParseString(EscapeChar(c) + tail) ==
              match ParseString(tail)
              case None => None
              case Some((s, rest)) => Some(([c] + s, rest))
  {
    var t := EscapeChar(c) + tail;
    if c != '"' && c != '\\' && c != '\U{0008}' && c != '\U{000C}' && c != '\n' && c != '\r' && c != '\t' && (c as int) < 0x20 {
      ControlEscapeRoundTrip(c, tail);
    } else if c == '"' || c == '\\' || c == '\U{0008}' || c == '\U{000C}' || c == '\n' || c == '\r' || c == '\t' {
      assert |EscapeChar(c)| == 2 && EscapeChar(c)[0] == '\\';
      assert t[2..] == tail;
    } else {
      assert EscapeChar(c) == [c];
      assert t[1..] == tail;
    }
  }

  /** An escaped string followed by a closing quote reads back as that string. */
  lemma {:induction false} StringRoundTrip(s: string, rest: string)
    ensures ParseString(Escape(s) + "\"" + rest) == Some((s, rest))
  {
    if s == [] {
      assert Escape(s) + "\"" + rest == ['"'] + rest;
    } else {
      var tail := Escape(s[1..]) + "\"" + rest;
      assert Escape(s) + "\"" + rest == EscapeChar(s[0]) + tail;
      StringRoundTrip(s[1..], rest);
      EscapeCharRoundTrip(s[0], tail);
      assert [s[0]] + s[1..] == s;
    }
  }

  type Member = (string, string)

  /** `"key":"value"`. */
  function MemberText(m: Member): string {
    Quote(m.0) + ":" + Quote(m.1)
  }

  /** The members of a non-empty object and its closing brace. */
  function MembersText(ms: seq<Member>): (t: string)
    requires ms != []
    ensures |t| > 2 && t[|t| - 1] == '}'
  {
    MemberText(ms[0]) + (if |ms| == 1 then "}" else "," + MembersText(ms[1..]))
  }

  /** `JSON.stringify` of an object whose members are the strings `ms`, in order. */
  function Stringify(ms: seq<Member>): (t: string)
    ensures |t| >= 2 && t[0] == '{' && t[|t| - 1] == '}'
    ensures t == "{}" <==> ms == []
  {
    if ms == [] then "{}" else "{" + MembersText(ms)
  }

  /** Reads members up to and including the closing brace; returns them and what follows. */
  function ParseMembers(t: string): (r: Option<(seq<Member>, string)>)
    ensures r.Some? ==> |r.value.1| < |t|
    decreases |t|
  {
    if t == [] || t[0] != '"' then None
    else match ParseString(t[1..])
      case None => None
      case Some((k, r1)) =>
        if |r1| < 2 || r1[0] != ':' || r1[1] != '"' then None
        else match ParseString(r1[2..])
          case None => None
          case Some((v, r2)) =>
            if r2 == [] then None
            else if r2[0] == '}' then Some(([(k, v)], r2[1..]))
            else if r2[0] == ',' then
              match ParseMembers(r2[1..])
              case None => None
              case Some((ms, r3)) => Some(([(k, v)] + ms, r3))
            else None
  }

  /** `JSON.parse` restricted to flat objects of string members. */
  function Parse(t: string): Option<seq<Member>> {
    if t == "{}" then Some([])
    else if t == [] || t[0] != '{' then None
    else match ParseMembers(t[1..])
      case Some((ms, rest)) => if rest == [] then Some(ms) else None
      case None => None
  }

  /** One unfolding of `ParseMembers` once both strings of the first member are known. */
  lemma {:induction false} ParseMembersUnfold(t: string, k: string, r1: string, v: string, r2: string)
    requires t != [] && t[0] == '"' && ParseString(t[1..]) == Some((k, r1))
    requires |r1| >= 2 && r1[0] == ':' && r1[1] == '"' && ParseString(r1[2..]) == Some((v, r2))
    ensures r2 != [] && r2[0] == '}' ==> ParseMembers(t) == Some(([(k, v)], r2[1..]))
    ensures r2 != [] && r2[0] == ',' && ParseMembers(r2[1..]).Some? ==>
              ParseMembers(t) == Some(([(k, v)] + ParseMembers(r2[1..]).value.0, ParseMembers(r2[1..]).value.1))
  {
  }

  /** Where the pieces of `"k":"v"` followed by more text sit, with the escaped strings left abstract. */
  lemma {:induction false} MemberLayout(ek: string, ev: string, after: string)
    ensures ("\"" + ek + "\"" + ":" + ("\"" + ev + "\"") + after)[0] == '"'
    ensures ("\"" + ek + "\"" + ":" + ("\"" + ev + "\"") + after)[1..]
         == ek + "\"" + (":" + ("\"" + ev + "\"") + after)
    ensures (":" + ("\"" + ev + "\"") + after)[2..] == ev + "\"" + after
  {
    var r1 := ":" + ("\"" + ev + "\"") + after;
    var t := "\"" + ek + "\"" + r1;
    assert t == "\"" + ek + "\"" + ":" + ("\"" + ev + "\"") + after;
    assert t == ['"'] + (ek + "\"" + r1);
    assert r1 == [':', '"'] + (ev + "\"" + after);
  }

  /** Both strings of a member read back, the key's leaving the colon and the quoted value. */
  lemma {:induction false} MemberStrings(m: Member, after: string)
    ensures (MemberText(m) + after)[0] == '"'
    ensures ParseString((MemberText(m) + after)[1..]) == Some((m.0, ":" + Quote(m.1) + after))
    ensures (":" + Quote(m.1) + after)[2..] == Escape(m.1) + "\"" + after
  {
    MemberLayout(Escape(m.0), Escape(m.1), after);
    StringRoundTrip(m.0, ":" + Quote(m.1) + after);
  }

  /** After one member has been read, what follows it alone decides the outcome. */
  lemma {:induction false} MemberStep(m: Member, after: string)
    ensures after != [] && after[0] == '}' ==> ParseMembers(MemberText(m) + after) == Some(([m], after[1..]))
    ensures after != [] && after[0] == ',' && ParseMembers(after[1..]).Some? ==>
              ParseMembers(MemberText(m) + after) ==
                Some(([m] + ParseMembers(after[1..]).value.0, ParseMembers(after[1..]).value.1))
  {
    var r1 := ":" + Quote(m.1) + after;
    MemberStrings(m, after);
    StringRoundTrip(m.1, after);
    assert |r1| >= 2 && r1[0] == ':' && r1[1] == '"';
    ParseMembersUnfold(MemberText(m) + after, m.0, r1, m.1, after);
  }

  /** Splitting `mt + sep + tail + rest` after the member text, with the pieces left abstract. */
  lemma {:induction false} AfterMember(mt: string, sep: char, tail: string, rest: string)
    ensures mt + ([sep] + tail) + rest == mt + ([sep] + (tail + rest))
    ensures ([sep] + (tail + rest))[0] == sep && ([sep] + (tail + rest))[1..] == tail + rest
  {
    assert mt + ([sep] + tail) + rest == mt + ([sep] + (tail + rest));
  }

  lemma HeadTail(ms: seq<Member>)
    requires ms != []
    ensures [ms[0]] + ms[1..] == ms
  {
  }

  /** The members, written out and followed by anything, read back as themselves. */
  lemma {:induction false} MembersRoundTrip(ms: seq<Member>, rest: string)
    requires ms != []
    ensures ParseMembers(MembersText(ms) + rest) == Some((ms, rest))
  {
    var m := ms[0];
    var mt := MemberText(m);
    if |ms| == 1 {
      assert MembersText(ms) == mt + (['}'] + []);
      AfterMember(mt, '}', [], rest);
      assert [] + rest == rest;
      MemberStep(m, ['}'] + rest);
      assert [m] == ms;
    } else {
      var tail := MembersText(ms[1..]);
      assert MembersText(ms) == mt + ([','] + tail);
      AfterMember(mt, ',', tail, rest);
      MembersRoundTrip(ms[1..], rest);
      MemberStep(m, [','] + (tail + rest));
      HeadTail(ms);
    }
  }

  /** Parsing what `Stringify` wrote gives back the same members in the same order. */
  lemma ParseStringify(ms: seq<Member>)
    ensures Parse(Stringify(ms)) == Some(ms)
  {
    if ms != [] {
      var t := Stringify(ms);
      MembersRoundTrip(ms, []);
      assert t[1..] == MembersText(ms) + [];
      assert t != "{}" by {
        assert |MembersText(ms)| > 2;
      }
    }
  }

  /** The value of the first member named `key`. */
  function Lookup(ms: seq<Member>, key: string): Option<string> {
    if ms == [] then None
    else if ms[0].0 == key then Some(ms[0].1)
    else Lookup(ms[1..], key)
  }

  /** Every written member is found: looking its key up gives some value. */
  lemma {:induction false} LookupMember(ms: seq<Member>, m: Member)
    requires m in ms
    ensures Lookup(ms, m.0).Some?
  {
    if ms[0] != m {
      assert m in ms[1..];
      LookupMember(ms[1..], m);
    }
  }

  lemma {:induction false} LookupAppend(a: seq<Member>, b: seq<Member>, key: string)
    ensures Lookup(a + b, key) == if Lookup(a, key).Some? then Lookup(a, key) else Lookup(b, key)
  {
    if a == [] {
      assert a + b == b;
    } else {
      assert (a + b)[1..] == a[1..] + b;
      LookupAppend(a[1..], b, key);
    }
  }
}
