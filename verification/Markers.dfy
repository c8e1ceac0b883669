/** How a delivery is recognised: a raw marker is searched in the JSON text kept as a booking's notes. */
module Markers {
  import opened Options

  datatype Platform = Coworker | Liquidspace

  function PlatformName(p: Platform): string {
    match p
    case Coworker => "coworker"
    case Liquidspace => "liquidspace"
  }

  // ----- JSON text ----------------------------------------------------------------------------

  function JsonChar(c: char): (t: string)
    ensures t == [c] || (|t| >= 2 && t[0] == '\\')
    ensures c != '"' ==> forall k :: 0 <= k < |t| ==> t[k] != '"'
  {
    if c == '"' then "\\\""
    else if c == '\\' then "\\\\"
    else if c < ' ' then ['\\'] + ControlName(c)
    else [c]
  }

  function ControlName(c: char): (t: string)
    requires c < ' '
    ensures t != [] && forall k :: 0 <= k < |t| ==> t[k] != '"'
  {
    var n := c as int;
    if n == 8 then "b"
    else if n == 9 then "t"
    else if n == 10 then "n"
    else if n == 12 then "f"
    else if n == 13 then "r"
    else "u00" + [HexDigit(n / 16), HexDigit(n % 16)]
  }

  function HexDigit(n: nat): (c: char)
    requires n < 16
    ensures c != '"'
  {
    "0123456789abcdef"[n]
  }

  function JsonText(s: string): string {
    if s == [] then [] else JsonChar(s[0]) + JsonText(s[1..])
  }

  /** Reading JSON text: section 7 of RFC 8259, without the slash and code points from 256 on, which need no
      escape here. */
  function Read(t: string): Option<string>
    decreases |t|
  {
    if t == [] then Some([])
    else if t[0] == '"' || t[0] < ' ' then None
    else if t[0] != '\\' then Before(t[0], Read(t[1..]))
    else if |t| >= 2 && Short(t[1]).Some? then Before(Short(t[1]).value, Read(t[2..]))
    else if |t| >= 6 && t[1..4] == "u00" && HexValue(t[4]) < 16 && HexValue(t[5]) < 16 then
      Before((16 * HexValue(t[4]) + HexValue(t[5])) as char, Read(t[6..]))
    else None
  }

  function Before(c: char, rest: Option<string>): Option<string> {
    if rest.None? then None else Some([c] + rest.value)
  }

  function Short(c: char): Option<char> {
    match c
    case '"' => Some('"')
    case '\\' => Some('\\')
    case 'b' => Some(8 as char)
    case 't' => Some(9 as char)
    case 'n' => Some(10 as char)
    case 'f' => Some(12 as char)
    case 'r' => Some(13 as char)
    case _ => None
  }

  function HexValue(c: char): nat {
    if '0' <= c <= '9' then c as int - '0' as int
    else if 'a' <= c <= 'f' then c as int - 'a' as int + 10
    else 16
  }

  lemma HexDigitValue(n: nat)
    requires n < 16
    ensures HexValue(HexDigit(n)) == n
  {
  }

  lemma ReadPlain(c: char, more: string)
    requires JsonChar(c) == [c]
    ensures Read([c] + more) == Before(c, Read(more))
  {
    assert ([c] + more)[1..] == more;
  }

  lemma ReadShort(c: char, e: char, more: string)
    requires Short(e) == Some(c)
    ensures Read(['\\', e] + more) == Before(c, Read(more))
  {
    assert (['\\', e] + more)[2..] == more;
  }

  lemma ReadCode(high: nat, low: nat, more: string)
    requires high < 16 && low < 16
    ensures Read(['\\', 'u', '0', '0', HexDigit(high), HexDigit(low)] + more)
            == Before((16 * high + low) as char, Read(more))
  {
    var t := ['\\', 'u', '0', '0', HexDigit(high), HexDigit(low)] + more;
    HexDigitValue(high);
    HexDigitValue(low);
    assert t[1..4] == "u00" && t[6..] == more;
  }

  lemma ReadControl(c: char, more: string)
    requires c < ' '
    ensures Read(['\\'] + ControlName(c) + more) == Before(c, Read(more))
  {
    var name := ControlName(c);
    if |name| == 1 {
      ReadShort(c, name[0], more);
      assert ['\\'] + name == ['\\', name[0]];
    } else {
      ReadCode(c as int / 16, c as int % 16, more);
      assert ['\\'] + name == ['\\', 'u', '0', '0', HexDigit(c as int / 16), HexDigit(c as int % 16)];
    }
  }

  lemma ReadFirst(c: char, more: string)
    ensures Read(JsonChar(c) + more) == Before(c, Read(more))
  {
    if c == '"' || c == '\\' {
      ReadShort(c, c, more);
      assert JsonChar(c) == ['\\', c];
    } else if c < ' ' {
      ReadControl(c, more);
    } else {
      ReadPlain(c, more);
    }
  }

  /** Nothing is lost in the notes: reading the text of a string gives it back. */
  lemma {:induction false} ReadInverse(s: string)
    ensures Read(JsonText(s)) == Some(s)
    decreases |s|
  {
    if s != [] {
      ReadInverse(s[1..]);
      ReadFirst(s[0], JsonText(s[1..]));
      assert [s[0]] + s[1..] == s;
    }
  }

  /** What stands before the value of a member: its key, a colon and the opening quote. */
  function Opening(key: string): string {
    ['"'] + (key + (['"'] + ([':'] + ['"'])))
  }

  function Member(key: string, value: string): string {
    Opening(key) + (JsonText(value) + ['"'])
  }

  function Listed(key: string, value: string, rest: string): string {
    Member(key, value) + ([','] + rest)
  }

  function Optional(key: string, value: Option<string>, rest: string): string {
    if value.None? then rest else [','] + (Member(key, value.value) + rest)
  }

  /** A guest's e-mail and name are left out when the request has none. */
  function Guest(email: Option<string>, name: Option<string>): string {
    Optional("guestEmail", email, Optional("guestName", name, ['}']))
  }

  function Fixed(source: string, platform: string, inquiry: string): string {
    ['{'] + Listed("source", source, Listed("platform", platform, inquiry))
  }

  function Notes(p: Platform, id: string, email: Option<string>, name: Option<string>): string {
    Fixed("marketplace", PlatformName(p), Member("inquiryId", id) + Guest(email, name))
  }

  // ----- The search ---------------------------------------------------------------------------

  /** The id goes into the marker as it came, without escaping. */
  function Marker(id: string): string {
    Opening("inquiryId") + (id + ['"'])
  }

  predicate Contains(text: string, part: string) {
    part <= text || (text != [] && Contains(text[1..], part))
  }

  lemma {:induction false} ContainsIff(text: string, part: string)
    ensures Contains(text, part) <==> exists p :: 0 <= p <= |text| && part <= text[p..]
    decreases |text|
  {
    if part <= text {
      assert text[0..] == text;
    } else if text != [] {
      ContainsIff(text[1..], part);
      assert forall p :: 0 < p <= |text| ==> text[1..][p - 1..] == text[p..];
      if Contains(text[1..], part) {
        var p :| 0 <= p <= |text[1..]| && part <= text[1..][p..];
        assert part <= text[p + 1..];
      }
      if p :| 0 <= p <= |text| && part <= text[p..] {
        assert part <= text[1..][p - 1..];
      }
    }
  }

  predicate Quoteless(s: string) {
    forall k :: 0 <= k < |s| ==> s[k] != '"'
  }

  /** A marker opens with a quote, so it starts nowhere in text without one. */
  lemma {:induction false} Pass(s: string, text: string, id: string)
    requires Quoteless(s)
    ensures Contains(s + text, Marker(id)) <==> Contains(text, Marker(id))
    decreases |s|
  {
    if s == [] {
      assert s + text == text;
    } else {
      Pass(s[1..], text, id);
      assert (s + text)[1..] == s[1..] + text && (s + text)[0] == s[0];
      assert Marker(id)[0] == '"';
    }
  }

  predicate Starts(text: string, s: string) {
    s <= text
  }

  lemma MarkerOpens(text: string, id: string)
    requires Marker(id) <= ['"'] + text
    ensures Starts(text, "inquiryId" + ['"'] + [':'])
  {
    var word := "inquiryId" + ['"'] + [':'];
    assert Marker(id)[1..][..|word|] == word;
    assert Marker(id)[1..] <= text;
  }

  lemma PassQuote(text: string, id: string)
    requires !Starts(text, "inquiryId" + ['"'] + [':'])
    ensures Contains(['"'] + text, Marker(id)) <==> Contains(text, Marker(id))
  {
    assert (['"'] + text)[1..] == text;
    if Marker(id) <= ['"'] + text { MarkerOpens(text, id); }
  }

  lemma PassQuoteBefore(c: char, text: string, id: string)
    requires c != 'i'
    ensures Contains(['"'] + ([c] + text), Marker(id)) <==> Contains([c] + text, Marker(id))
  {
    assert ("inquiryId" + ['"'] + [':'])[0] == 'i' && ([c] + text)[0] == c;
    PassQuote([c] + text, id);
  }

  predicate Follows(rest: string) {
    rest != [] && (rest[0] == ',' || rest[0] == '}')
  }

  lemma SplitValue(value: string, rest: string)
    requires value != []
    ensures JsonText(value) + ['"'] + rest == JsonChar(value[0]) + (JsonText(value[1..]) + ['"'] + rest)
  {
  }

  lemma KeyStep(word: string, c: char, more: string)
    requires Starts(JsonChar(c) + more, word + ['"'] + [':'])
    requires forall k :: 0 <= k < |word| ==> word[k] != '\\'
    ensures word != [] && Starts(more, word[1..] + ['"'] + [':'])
  {
    var key, text := word + ['"'] + [':'], JsonChar(c) + more;
    assert key[0] == text[0] == JsonChar(c)[0];
    assert word != [] && JsonChar(c) == [c];
    assert text[1..] == more && key[1..] == word[1..] + ['"'] + [':'];
  }

  lemma KeyEnds(word: string, rest: string)
    requires Quoteless(word) && Follows(rest)
    ensures !Starts(['"'] + rest, word + ['"'] + [':'])
  {
    var key, text := word + ['"'] + [':'], ['"'] + rest;
    assert text[0] == '"' && text[1] == rest[0];
    assert key[0] == if word == [] then '"' else word[0];
  }

  /** A word before an unescaped quote in a value is followed by a comma or a brace, never by a colon. */
  lemma {:induction false} NoKeyInValue(word: string, value: string, rest: string)
    requires Quoteless(word) && (forall k :: 0 <= k < |word| ==> word[k] != '\\') && Follows(rest)
    ensures !Starts(JsonText(value) + ['"'] + rest, word + ['"'] + [':'])
    decreases |value|
  {
    if value == [] {
      assert JsonText(value) + ['"'] + rest == ['"'] + rest;
      KeyEnds(word, rest);
    } else {
      SplitValue(value, rest);
      var more := JsonText(value[1..]) + ['"'] + rest;
      if Starts(JsonChar(value[0]) + more, word + ['"'] + [':']) {
        KeyStep(word, value[0], more);
        NoKeyInValue(word[1..], value[1..], rest);
        assert false;
      }
    }
  }

  lemma PassChar(c: char, text: string, id: string)
    requires !Starts(text, "inquiryId" + ['"'] + [':'])
    ensures Contains(JsonChar(c) + text, Marker(id)) <==> Contains(text, Marker(id))
  {
    if c == '"' {
      PassQuote(text, id);
      Pass("\\", ['"'] + text, id);
      assert JsonChar(c) + text == "\\" + (['"'] + text);
    } else {
      Pass(JsonChar(c), text, id);
    }
  }

  lemma PassClosing(rest: string, id: string)
    requires Follows(rest)
    ensures Contains(['"'] + rest, Marker(id)) <==> Contains(rest, Marker(id))
  {
    assert rest == [rest[0]] + rest[1..];
    PassQuoteBefore(rest[0], rest[1..], id);
  }

  lemma PassFirst(value: string, rest: string, id: string)
    requires value != [] && Follows(rest)
    ensures Contains(JsonText(value) + ['"'] + rest, Marker(id)) <==>
            Contains(JsonText(value[1..]) + ['"'] + rest, Marker(id))
  {
    NoKeyInValue("inquiryId", value[1..], rest);
    PassChar(value[0], JsonText(value[1..]) + ['"'] + rest, id);
    SplitValue(value, rest);
  }

  lemma {:induction false} PassValue(value: string, rest: string, id: string)
    requires Follows(rest)
    ensures Contains(JsonText(value) + ['"'] + rest, Marker(id)) <==> Contains(rest, Marker(id))
    decreases |value|
  {
    if value == [] {
      PassClosing(rest, id);
      assert JsonText(value) + ['"'] + rest == ['"'] + rest;
    } else {
      PassFirst(value, rest, id);
      PassValue(value[1..], rest, id);
    }
  }

  /** What follows the opening quote of a member. */
  function Tail(key: string, value: string, rest: string): string {
    key + (['"'] + ([':'] + (['"'] + (JsonText(value) + ['"'] + rest))))
  }

  lemma SplitMember(key: string, value: string, rest: string)
    ensures Member(key, value) + rest == ['"'] + Tail(key, value, rest)
  {
    var text := JsonText(value) + ['"'] + rest;
    Regroup(Opening(key), JsonText(value) + ['"'], rest);
    Regroup(['"'], key + (['"'] + ([':'] + ['"'])), text);
    Regroup(key, ['"'] + ([':'] + ['"']), text);
    Regroup(['"'], [':'] + ['"'], text);
    Regroup([':'], ['"'], text);
  }

  /** Behind its opening quote, a member holds no marker. */
  lemma PassTail(key: string, value: string, rest: string, id: string)
    requires Quoteless(key) && Follows(rest)
    ensures Contains(Tail(key, value, rest), Marker(id)) <==> Contains(rest, Marker(id))
  {
    var text := JsonText(value) + ['"'] + rest;
    PassValue(value, rest, id);
    NoKeyInValue("inquiryId", value, rest);
    PassQuote(text, id);
    Pass([':'], ['"'] + text, id);
    PassQuoteBefore(':', ['"'] + text, id);
    Pass(key, ['"'] + ([':'] + (['"'] + text)), id);
  }

  lemma PassOtherMember(key: string, value: string, rest: string, id: string)
    requires key != [] && key[0] != 'i' && Quoteless(key) && Follows(rest)
    ensures Contains(Member(key, value) + rest, Marker(id)) <==> Contains(rest, Marker(id))
  {
    var tail := Tail(key, value, rest);
    assert tail == [key[0]] + tail[1..];
    PassTail(key, value, rest, id);
    PassQuoteBefore(key[0], tail[1..], id);
    SplitMember(key, value, rest);
  }

  lemma PassOptional(key: string, value: Option<string>, rest: string, id: string)
    requires key != [] && key[0] != 'i' && Quoteless(key) && Follows(rest)
    ensures Follows(Optional(key, value, rest))
    ensures Contains(Optional(key, value, rest), Marker(id)) <==> Contains(rest, Marker(id))
  {
    if value.Some? {
      PassOtherMember(key, value.value, rest, id);
      Pass([','], Member(key, value.value) + rest, id);
    }
  }

  lemma PassListed(key: string, value: string, rest: string, id: string)
    requires key != [] && key[0] != 'i' && Quoteless(key)
    ensures Contains(Listed(key, value, rest), Marker(id)) <==> Contains(rest, Marker(id))
  {
    Pass([','], rest, id);
    PassOtherMember(key, value, [','] + rest, id);
  }

  lemma NoMarkerInGuest(email: Option<string>, name: Option<string>, id: string)
    ensures Follows(Guest(email, name)) && !Contains(Guest(email, name), Marker(id))
  {
    PassOptional("guestName", name, ['}'], id);
    PassOptional("guestEmail", email, Optional("guestName", name, ['}']), id);
    Pass(['}'], [], id);
    assert ['}'] + [] == ['}'];
  }

  lemma MarkerAtMember(other: string, rest: string, id: string)
    ensures Marker(id) <= Member("inquiryId", other) + rest <==> id + ['"'] <= JsonText(other) + ['"'] + rest
  {
    Regroup(Opening("inquiryId"), JsonText(other) + ['"'], rest);
    CommonHead(Opening("inquiryId"), id + ['"'], JsonText(other) + ['"'] + rest);
  }

  lemma Regroup(a: string, b: string, c: string)
    ensures a + b + c == a + (b + c)
  {
  }

  lemma CommonHead(head: string, a: string, b: string)
    ensures head + a <= head + b <==> a <= b
  {
    assert (head + a)[|head|..] == a && (head + b)[|head|..] == b;
  }

  lemma InquiryFoundIff(other: string, rest: string, id: string)
    requires Follows(rest) && !Contains(rest, Marker(id))
    ensures var inquiry := Member("inquiryId", other) + rest;
            Contains(inquiry, Marker(id)) <==> id + ['"'] <= JsonText(other) + ['"'] + rest
  {
    PassTail("inquiryId", other, rest, id);
    SplitMember("inquiryId", other, rest);
    assert (['"'] + Tail("inquiryId", other, rest))[1..] == Tail("inquiryId", other, rest);
    MarkerAtMember(other, rest, id);
  }

  lemma PassFixed(source: string, platform: string, inquiry: string, id: string)
    ensures Contains(Fixed(source, platform, inquiry), Marker(id)) <==> Contains(inquiry, Marker(id))
  {
    PassListed("platform", platform, inquiry, id);
    PassListed("source", source, Listed("platform", platform, inquiry), id);
    Pass(['{'], Listed("source", source, Listed("platform", platform, inquiry)), id);
  }

  /** Text written by a guest never opens a marker: it is found at the inquiry's own member or not at
      all, and there exactly when the raw id and its quote begin what was written. */
  lemma MarkerFoundIff(p: Platform, other: string, email: Option<string>, name: Option<string>, id: string)
    ensures Contains(Notes(p, other, email, name), Marker(id)) <==>
            id + ['"'] <= JsonText(other) + ['"'] + Guest(email, name)
  {
    NoMarkerInGuest(email, name, id);
    InquiryFoundIff(other, Guest(email, name), id);
    PassFixed("marketplace", PlatformName(p), Member("inquiryId", other) + Guest(email, name), id);
  }

  // ----- Which ids are recognised -------------------------------------------------------------

  /** No quote, no backslash, no control character. */
  predicate PlainId(id: string) {
    forall k :: 0 <= k < |id| ==> id[k] != '"' && id[k] != '\\' && !(id[k] < ' ')
  }

  lemma {:induction false} PlainIsUnchanged(id: string)
    requires PlainId(id)
    ensures JsonText(id) == id
    decreases |id|
  {
    if id != [] {
      PlainIsUnchanged(id[1..]);
      assert [id[0]] + id[1..] == id;
    }
  }

  /** Escaping backslashes only pushes the closing quote further away. */
  lemma {:induction false} EscapedNeverMeets(id: string, rest: string, drift: string)
    requires drift != []
    requires forall k :: 0 <= k < |drift| ==> drift[k] == '\\'
    ensures !(id + ['"'] <= drift + (JsonText(id) + ['"'] + rest))
    decreases |id|
  {
    var text := drift + (JsonText(id) + ['"'] + rest);
    if id + ['"'] <= text {
      assert (id + ['"'])[0] == text[0] == '\\';
      SplitValue(id, rest);
      var more := JsonText(id[1..]) + ['"'] + rest;
      assert text[1..] == (drift[1..] + "\\\\") + more;
      assert id[1..] + ['"'] == (id + ['"'])[1..];
      EscapedNeverMeets(id[1..], rest, drift[1..] + "\\\\");
      assert false;
    }
  }

  lemma MeetStep(id: string, c: char, more: string)
    requires id + ['"'] <= JsonChar(c) + more
    ensures id != [] && id[0] == JsonChar(c)[0]
    ensures JsonChar(c) == [c] ==> id[0] == c && id[1..] + ['"'] <= more
  {
    assert (id + ['"'])[0] == (JsonChar(c) + more)[0] == JsonChar(c)[0];
    assert (id + ['"'])[1..] == id[1..] + ['"'];
    assert ([c] + more)[1..] == more;
  }

  lemma SplitHead(a: string, b: string)
    requires a != []
    ensures a + b == [a[0]] + (a[1..] + b)
  {
  }

  lemma BackslashNeverMeets(id: string, rest: string)
    requires id != [] && id[0] == '\\'
    ensures !(id + ['"'] <= JsonText(id) + ['"'] + rest)
  {
    var more := JsonText(id[1..]) + ['"'] + rest;
    SplitValue(id, rest);
    SplitHead(id, ['"']);
    SplitHead("\\\\", more);
    CommonHead(['\\'], id[1..] + ['"'], ['\\'] + more);
    EscapedNeverMeets(id[1..], rest, ['\\']);
  }

  lemma {:induction false} OwnMeetsOnlyPlain(id: string, rest: string)
    requires id + ['"'] <= JsonText(id) + ['"'] + rest
    ensures PlainId(id)
    decreases |id|
  {
    if id != [] {
      if id[0] == '\\' { BackslashNeverMeets(id, rest); }
      SplitValue(id, rest);
      MeetStep(id, id[0], JsonText(id[1..]) + ['"'] + rest);
      OwnMeetsOnlyPlain(id[1..], rest);
      PlainHead(id);
    }
  }

  lemma PlainHead(id: string)
    requires id != [] && id[0] != '"' && id[0] != '\\' && !(id[0] < ' ') && PlainId(id[1..])
    ensures PlainId(id)
  {
    assert forall k :: 0 < k < |id| ==> id[k] == id[1..][k - 1];
  }

  lemma {:induction false} PlainMeetsOnlyItself(id: string, other: string, rest: string)
    requires PlainId(id) && id + ['"'] <= JsonText(other) + ['"'] + rest
    ensures other == id
    decreases |id|
  {
    if other == [] {
      assert (id + ['"'])[0] == (['"'] + rest)[0];
    } else {
      SplitValue(other, rest);
      MeetStep(id, other[0], JsonText(other[1..]) + ['"'] + rest);
      PlainMeetsOnlyItself(id[1..], other[1..], rest);
      assert other == [other[0]] + other[1..] && id == [id[0]] + id[1..];
    }
  }

  /** The search finds the inquiry's own notes if and only if the id needs no escaping. */
  lemma OwnNotesFoundIff(p: Platform, id: string, email: Option<string>, name: Option<string>)
    ensures Contains(Notes(p, id, email, name), Marker(id)) <==> PlainId(id)
  {
    MarkerFoundIff(p, id, email, name, id);
    if PlainId(id) {
      PlainIsUnchanged(id);
    } else if id + ['"'] <= JsonText(id) + ['"'] + Guest(email, name) {
      OwnMeetsOnlyPlain(id, Guest(email, name));
    }
  }

  lemma PlainSearchCompares(p: Platform, other: string, email: Option<string>, name: Option<string>, id: string)
    requires PlainId(id)
    ensures Contains(Notes(p, other, email, name), Marker(id)) <==> other == id
  {
    MarkerFoundIff(p, other, email, name, id);
    PlainIsUnchanged(id);
    if id + ['"'] <= JsonText(other) + ['"'] + Guest(email, name) {
      PlainMeetsOnlyItself(id, other, Guest(email, name));
    }
  }

  /** Searching for the marker is comparing the ids, whatever the other inquiry and its guest are
      called, if and only if the id needs no escaping. */
  lemma SearchComparesIff(id: string)
    ensures PlainId(id) <==> forall p, other, email, name ::
              Contains(Notes(p, other, email, name), Marker(id)) <==> other == id
  {
    if PlainId(id) {
      forall p, other, email, name
        ensures Contains(Notes(p, other, email, name), Marker(id)) <==> other == id
      {
        PlainSearchCompares(p, other, email, name, id);
      }
    } else {
      OwnNotesFoundIff(Coworker, id, None, None);
    }
  }
}
