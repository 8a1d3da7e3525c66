/** JSON values as the Lambda runtime and the Step Functions interpreter see
    them, member lookup with JavaScript's `JSON.parse` rule for repeated keys,
    path selection (`$.a.b`), and `JSON.stringify` for the values the handlers
    serialise. Numbers are integers only. */
module Json {
  import opened Wrappers
  import opened Text

  datatype Json =
    | JNull
    | JBool(b: bool)
    | JNum(n: int)
    | JStr(s: string)
    | JArr(items: seq<Json>)
    | JObj(fields: seq<(string, Json)>)

  /** The value of `key` among `fields`; when the key repeats, the last
      occurrence wins, as it does for `JSON.parse`. */
  function Lookup(fields: seq<(string, Json)>, key: string): (r: Option<Json>)
    ensures r.None? <==> forall i :: 0 <= i < |fields| ==> fields[i].0 != key
    ensures r.Some? ==> exists i :: 0 <= i < |fields| && fields[i] == (key, r.value)
                                 && forall k :: i < k < |fields| ==> fields[k].0 != key
  {
    if |fields| == 0 then None
    else if fields[|fields| - 1].0 == key then Some(fields[|fields| - 1].1)
    else Lookup(fields[..|fields| - 1], key)
  }

  /** A key that occurs once is looked up to its one value. */
  lemma LookupUnique(fields: seq<(string, Json)>, key: string, i: nat)
    requires i < |fields| && fields[i].0 == key
    requires forall k :: 0 <= k < |fields| && k != i ==> fields[k].0 != key
    ensures Lookup(fields, key) == Some(fields[i].1)
  {
  }

  /** `j.key` for an object; any other value has no members. */
  function Member(j: Json, key: string): Option<Json> {
    if j.JObj? then Lookup(j.fields, key) else None
  }

  /** The JSONPath `$.p0.p1...` applied to `j`; None when some step is absent. */
  function Select(j: Json, path: seq<string>): Option<Json>
    decreases |path|
  {
    if |path| == 0 then Some(j)
    else match Member(j, path[0])
      case None => None
      case Some(v) => Select(v, path[1..])
  }

  /** The string at `path` (`$.a.b`), if the value there is a string. */
  function StringAt(j: Json, path: seq<string>): Option<string> {
    match Select(j, path)
    case Some(JStr(s)) => Some(s)
    case _ => None
  }

  // ---------------------------------------------------------------------------
  // JSON.stringify

  function DigitChar(d: nat): char
    requires d < 10
  {
    (48 + d) as char
  }

  function NatToString(n: nat): string
    decreases n
  {
    if n < 10 then [DigitChar(n)] else NatToString(n / 10) + [DigitChar(n % 10)]
  }

  function IntToString(i: int): string {
    if i < 0 then "-" + NatToString(-i) else NatToString(i)
  }

  /** Lower-case hexadecimal digit, as `JSON.stringify` writes `\u00XX`. */
  function HexDigit(d: nat): char
    requires d < 16
  {
    if d < 10 then (48 + d) as char else (97 + d - 10) as char
  }

  /** The JSON string escape of one character: quote, backslash and the
      C0 control characters are escaped, everything else is kept. */
  function EscapeChar(c: char): string {
    if c == '"' then ['\\', '"']
    else if c == '\\' then ['\\', '\\']
    else if c as int == 8 then ['\\', 'b']
    else if c as int == 12 then ['\\', 'f']
    else if c == '\n' then ['\\', 'n']
    else if c == '\r' then ['\\', 'r']
    else if c == '\t' then ['\\', 't']
    else if c as int < 32 then ['\\', 'u', '0', '0', HexDigit(c as int / 16), HexDigit(c as int % 16)]
    else [c]
  }

  function Escape(s: string): string
    decreases |s|
  {
    if |s| == 0 then "" else EscapeChar(s[0]) + Escape(s[1..])
  }

  /** Characters that `JSON.stringify` copies unchanged. */
  predicate Plain(c: char) {
    c != '"' && c != '\\' && c as int >= 32
  }

  /** A string of plain characters is its own escape. */
  lemma {:induction false} EscapePlain(s: string)
    requires forall i :: 0 <= i < |s| ==> Plain(s[i])
    ensures Escape(s) == s
    decreases |s|
  {
    if |s| > 0 {
      EscapePlain(s[1..]);
      assert [s[0]] + s[1..] == s;
    }
  }

  /** A string literal: quotes around the escaped contents. */
  function Quote(s: string): string {
    "\"" + Escape(s) + "\""
  }

  function Stringify(j: Json): string
    decreases j
  {
    match j
    case JNull => "null"
    case JBool(b) => if b then "true" else "false"
    case JNum(n) => IntToString(n)
    case JStr(s) => Quote(s)
    case JArr(items) =>
      "[" + Join(seq(|items|, i requires 0 <= i < |items| => Stringify(items[i])), ",") + "]"
    case JObj(fields) =>
      "{" + Join(seq(|fields|, i requires 0 <= i < |fields| => Quote(fields[i].0) + ":" + Stringify(fields[i].1)), ",") + "}"
  }

  /** An object with a single member serialises as `{"key":value}`. */
  lemma StringifySingleMember(key: string, v: Json)
    ensures Stringify(JObj([(key, v)])) == "{" + Quote(key) + ":" + Stringify(v) + "}"
  {
    var fields := [(key, v)];
    var parts := seq(|fields|, i requires 0 <= i < |fields| => Quote(fields[i].0) + ":" + Stringify(fields[i].1));
    assert parts == [Quote(key) + ":" + Stringify(v)];
  }

  /** `{"key":"value"}` for a key that needs no escaping. */
  lemma StringMemberText(key: string, v: string)
    requires forall i :: 0 <= i < |key| ==> Plain(key[i])
    ensures Stringify(JObj([(key, JStr(v))])) == "{\"" + key + "\":\"" + Escape(v) + "\"}"
  {
    var e := Escape(v);
    assert "{" + ("\"" + key + "\"") + ":" + ("\"" + e + "\"") + "}" == "{\"" + key + "\":\"" + e + "\"}";
    EscapePlain(key);
    StringifySingleMember(key, JStr(v));
  }

  // ---------------------------------------------------------------------------
  // Reading a string literal's contents back: the reference decoder for Escape.

  function HexValue(c: char): (r: Option<nat>)
    ensures r.Some? ==> r.value < 16
  {
    if '0' <= c <= '9' then Some(c as int - 48)
    else if 'a' <= c <= 'f' then Some(c as int - 97 + 10)
    else if 'A' <= c <= 'F' then Some(c as int - 65 + 10)
    else None
  }

  function Hex4(h: string): (r: Option<nat>)
    requires |h| == 4
    ensures r.Some? ==> r.value < 0x1_0000
  {
    match (HexValue(h[0]), HexValue(h[1]), HexValue(h[2]), HexValue(h[3]))
    case (Some(a), Some(b), Some(c), Some(d)) =>
      assert a * 16 + b < 256 by {
        assert a * 16 <= 15 * 16;
      }
      assert (a * 16 + b) * 16 + c < 4096 by {
        assert (a * 16 + b) * 16 <= 255 * 16;
      }
      assert ((a * 16 + b) * 16 + c) * 16 + d < 0x1_0000 by {
        assert ((a * 16 + b) * 16 + c) * 16 <= 4095 * 16;
      }
      Some(((a * 16 + b) * 16 + c) * 16 + d)
    case _ => None
  }

  function Prepend(c: char, rest: Option<string>): Option<string> {
    match rest
    case None => None
    case Some(s) => Some([c] + s)
  }

  /** The characters a JSON string literal's contents denote, or None when the
      contents are not a valid literal body (a raw quote or control
      character, an unknown escape, a surrogate `\u` escape). */
  function Unescape(s: string): Option<string>
    decreases |s|
  {
    if |s| == 0 then Some("")
    else if s[0] == '\\' then
      if |s| < 2 then None
      else
        var e := s[1];
        if e == '"' || e == '\\' || e == '/' then Prepend(e, Unescape(s[2..]))
        else if e == 'b' then Prepend(8 as char, Unescape(s[2..]))
        else if e == 'f' then Prepend(12 as char, Unescape(s[2..]))
        else if e == 'n' then Prepend('\n', Unescape(s[2..]))
        else if e == 'r' then Prepend('\r', Unescape(s[2..]))
        else if e == 't' then Prepend('\t', Unescape(s[2..]))
        else if e == 'u' && |s| >= 6 then
          match Hex4(s[2..6])
          case None => None
          case Some(n) => if 0xD800 <= n < 0xE000 then None else Prepend(n as char, Unescape(s[6..]))
        else None
    else if s[0] == '"' || s[0] as int < 32 then None
    else Prepend(s[0], Unescape(s[1..]))
  }

  lemma HexDigitValue(d: nat)
    requires d < 16
    ensures HexValue(HexDigit(d)) == Some(d)
  {
  }

  /** Decoding one escaped character followed by anything decodes that
      character first. */
  lemma UnescapeEscapeChar(c: char, t: string)
    ensures Unescape(EscapeChar(c) + t) == Prepend(c, Unescape(t))
  {
    var s := EscapeChar(c) + t;
    if |EscapeChar(c)| == 2 {
      assert s[2..] == t;
    } else if |EscapeChar(c)| == 6 {
      var hi := c as int / 16;
      var lo := c as int % 16;
      HexDigitValue(hi);
      HexDigitValue(lo);
      HexDigitValue(0);
      assert s[2..6] == ['0', '0', HexDigit(hi), HexDigit(lo)];
      assert Hex4(s[2..6]) == Some(c as int);
      assert s[6..] == t;
    } else {
      assert s[1..] == t;
    }
  }

  /** Escaping loses nothing: the decoder gives back the original string. */
  lemma {:induction false} UnescapeEscape(s: string)
    ensures Unescape(Escape(s)) == Some(s)
    decreases |s|
  {
    if |s| > 0 {
      UnescapeEscapeChar(s[0], Escape(s[1..]));
      UnescapeEscape(s[1..]);
      assert [s[0]] + s[1..] == s;
    }
  }
}
