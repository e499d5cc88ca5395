/** The stored form of an encrypted frame: a JSON object of three base64 strings, as UTF-8.
    JSON is modelled as far as objects of unescaped ASCII strings go. */
module FrameCodec {
  import opened Wrappers
  import opened Base64

  datatype EncryptedFrame = EncryptedFrame(iv: Bytes, tag: Bytes, ciphertext: Bytes)

  datatype Member = Member(name: string, value: string)

  datatype Failure = NotAnObject | MissingFields

  // ----- text and bytes -----

  /** Buffer.from(text, 'utf8') of ASCII text. */
  function ToBytes(text: string): Bytes
    requires forall i | 0 <= i < |text| :: text[i] as int < 128
  {
    seq(|text|, i requires 0 <= i < |text| => text[i] as int)
  }

  /** toString('utf8') while all bytes are ASCII. */
  function FromBytes(b: Bytes): Option<string> {
    if forall i | 0 <= i < |b| :: b[i] < 128 then Some(seq(|b|, i requires 0 <= i < |b| => b[i] as char)) else None
  }

  lemma TextRoundTrip(text: string)
    requires forall i | 0 <= i < |text| :: text[i] as int < 128
    ensures FromBytes(ToBytes(text)) == Some(text)
  {
    var back := FromBytes(ToBytes(text)).value;
    forall i | 0 <= i < |text| ensures back[i] == text[i] {
      assert (text[i] as int) as char == text[i];
    }
    assert back == text;
  }

  // ----- JSON objects of strings -----

  /** A character that JSON strings hold as it is. */
  predicate Bare(c: char) {
    c != '"' && c != '\\' && 32 <= c as int < 128
  }

  predicate AllBare(s: string) {
    forall i | 0 <= i < |s| :: Bare(s[i])
  }

  function PrintString(s: string): string {
    "\"" + s + "\""
  }

  function PrintMember(m: Member): string {
    PrintString(m.name) + ":" + PrintString(m.value)
  }

  function PrintMembers(ms: seq<Member>): string
    requires ms != []
  {
    if |ms| == 1 then PrintMember(ms[0]) + "}" else PrintMember(ms[0]) + "," + PrintMembers(ms[1..])
  }

  /** JSON.stringify of an object with these members. */
  function Print(ms: seq<Member>): string {
    if ms == [] then "{}" else "{" + PrintMembers(ms)
  }

  /** The characters up to the closing quote, and the rest behind it. */
  function ParseChars(s: string): Option<(string, string)> {
    if s == "" then None
    else if s[0] == '"' then Some(("", s[1..]))
    else if !Bare(s[0]) then None
    else
      match ParseChars(s[1..])
      case None => None
      case Some(r) => Some(([s[0]] + r.0, r.1))
  }

  lemma {:induction false} RestIsShorter(s: string)
    ensures ParseChars(s).Some? ==> |ParseChars(s).value.1| < |s|
  {
    if s != "" && s[0] != '"' && Bare(s[0]) { RestIsShorter(s[1..]); }
  }

  function ParseString(s: string): Option<(string, string)> {
    if s != "" && s[0] == '"' then ParseChars(s[1..]) else None
  }

  function ParseMember(s: string): Option<(Member, string)> {
    match ParseString(s)
    case None => None
    case Some(n) =>
      if n.1 == "" || n.1[0] != ':' then None
      else
        match ParseString(n.1[1..])
        case None => None
        case Some(v) => Some((Member(n.0, v.0), v.1))
  }

  lemma MemberIsLonger(s: string)
    ensures ParseMember(s).Some? ==> |ParseMember(s).value.1| < |s|
  {
    if ParseMember(s).Some? {
      RestIsShorter(s[1..]);
      var n := ParseString(s).value;
      RestIsShorter(n.1[1..][1..]);
    }
  }

  /** The members after the opening brace of a non-empty object; nothing may follow the closing
      brace. */
  function ParseMembers(s: string): Option<seq<Member>>
    decreases |s|
  {
    MemberIsLonger(s);
    match ParseMember(s)
    case None => None
    case Some(m) =>
      if m.1 == "}" then Some([m.0])
      else if m.1 == "" || m.1[0] != ',' then None
      else
        match ParseMembers(m.1[1..])
        case None => None
        case Some(rest) => Some([m.0] + rest)
  }

  function Parse(s: string): Option<seq<Member>> {
    if s == "{}" then Some([])
    else if s == "" || s[0] != '{' then None
    else ParseMembers(s[1..])
  }

  /** Of several members with one name the last counts. */
  function Field(ms: seq<Member>, name: string): Option<string> {
    if ms == [] then None
    else if ms[|ms| - 1].name == name then Some(ms[|ms| - 1].value)
    else Field(ms[..|ms| - 1], name)
  }

  lemma {:induction false} CharsBack(s: string, rest: string)
    requires AllBare(s)
    ensures ParseChars(s + "\"" + rest) == Some((s, rest))
  {
    var text := s + "\"" + rest;
    if s == "" {
      assert text[1..] == rest;
    } else {
      CharsBack(s[1..], rest);
      assert text[1..] == s[1..] + "\"" + rest;
      assert Bare(s[0]) && text[0] == s[0];
      assert [s[0]] + s[1..] == s;
    }
  }

  lemma StringBack(s: string, rest: string)
    requires AllBare(s)
    ensures ParseString(PrintString(s) + rest) == Some((s, rest))
  {
    CharsBack(s, rest);
    assert (PrintString(s) + rest)[1..] == s + "\"" + rest;
  }

  lemma MemberBack(m: Member, rest: string)
    requires AllBare(m.name) && AllBare(m.value)
    ensures ParseMember(PrintMember(m) + rest) == Some((m, rest))
  {
    var tail := PrintString(m.value) + rest;
    StringBack(m.name, ":" + tail);
    StringBack(m.value, rest);
    assert PrintMember(m) + rest == PrintString(m.name) + (":" + tail);
    assert (":" + tail)[1..] == tail;
  }

  lemma MoreMembers(m: Member, s: string, rest: string, ms: seq<Member>)
    requires ParseMember(s) == Some((m, "," + rest)) && ParseMembers(rest) == Some(ms)
    ensures ParseMembers(s) == Some([m] + ms)
  {
  }

  lemma {:induction false} MembersBack(ms: seq<Member>)
    requires ms != [] && BareMembers(ms)
    ensures ParseMembers(PrintMembers(ms)) == Some(ms)
    decreases |ms|
  {
    hide AllBare, PrintMember, ParseMember;
    if |ms| == 1 {
      MemberBack(ms[0], "}");
      assert ms == [ms[0]];
    } else {
      var rest := PrintMembers(ms[1..]);
      MemberBack(ms[0], "," + rest);
      MembersBack(ms[1..]);
      assert PrintMembers(ms) == PrintMember(ms[0]) + ("," + rest);
      hide ParseMembers, PrintMembers;
      MoreMembers(ms[0], PrintMembers(ms), rest, ms[1..]);
      assert ms == [ms[0]] + ms[1..];
    }
  }

  /** Whatever object of bare strings was printed is parsed back, member by member. */
  lemma ParsePrint(ms: seq<Member>)
    requires BareMembers(ms)
    ensures Parse(Print(ms)) == Some(ms)
  {
    if ms != [] {
      MembersBack(ms);
      assert Print(ms)[1..] == PrintMembers(ms);
      PrintedIsLong(ms);
    }
  }

  lemma PrintedIsLong(ms: seq<Member>)
    requires ms != []
    ensures |PrintMembers(ms)| >= 2
  {
  }

  // ----- the codec -----

  function FrameMembers(f: EncryptedFrame): seq<Member> {
    [Member("iv", Encode(f.iv)), Member("tag", Encode(f.tag)), Member("ciphertext", Encode(f.ciphertext))]
  }

  predicate Ascii(s: string) {
    forall i | 0 <= i < |s| :: s[i] as int < 128
  }

  lemma EncodedIsBare(b: Bytes)
    ensures AllBare(Encode(b)) && Ascii(Encode(b))
  {
    EncodedText(b);
    forall i | 0 <= i < |Encode(b)| ensures Bare(Encode(b)[i]) { CleanIsHarmless(Encode(b)[i]); }
  }

  function SerializeFrame(f: EncryptedFrame): Bytes {
    FrameIsBare(f);
    PrintedIsAscii(FrameMembers(f));
    ToBytes(Print(FrameMembers(f)))
  }

  predicate BareMembers(ms: seq<Member>) {
    forall i | 0 <= i < |ms| :: AllBare(ms[i].name) && AllBare(ms[i].value)
  }

  lemma {:induction false} PrintedIsAscii(ms: seq<Member>)
    requires BareMembers(ms)
    ensures Ascii(Print(ms)) && (ms != [] ==> Ascii(PrintMembers(ms)))
    decreases |ms|
  {
    if ms != [] {
      assert Ascii(PrintMember(ms[0])) by { MemberIsAscii(ms[0]); }
      hide PrintMember;
      if |ms| > 1 { PrintedIsAscii(ms[1..]); }
    }
  }

  lemma MemberIsAscii(m: Member)
    requires AllBare(m.name) && AllBare(m.value)
    ensures Ascii(PrintMember(m))
  {
  }

  lemma FrameIsBare(f: EncryptedFrame)
    ensures BareMembers(FrameMembers(f))
  {
    EncodedIsBare(f.iv); EncodedIsBare(f.tag); EncodedIsBare(f.ciphertext);
  }

  function DeserializeFrame(b: Bytes): Result<EncryptedFrame, Failure> {
    match FromBytes(b)
    case None => Err(NotAnObject)
    case Some(text) =>
      match Parse(text)
      case None => Err(NotAnObject)
      case Some(ms) =>
        var iv, tag, ciphertext := Field(ms, "iv"), Field(ms, "tag"), Field(ms, "ciphertext");
        if iv.None? || tag.None? || ciphertext.None? then Err(MissingFields)
        else Ok(EncryptedFrame(Decode(iv.value), Decode(tag.value), Decode(ciphertext.value)))
  }

  /** Every frame comes back as it was stored. */
  lemma FrameRoundTrip(f: EncryptedFrame)
    ensures DeserializeFrame(SerializeFrame(f)) == Ok(f)
  {
    var ms := FrameMembers(f);
    FrameIsBare(f);
    PrintedIsAscii(ms);
    TextRoundTrip(Print(ms));
    ParsePrint(ms);
    FieldsOfFrame(f);
    RoundTrip(f.iv); RoundTrip(f.tag); RoundTrip(f.ciphertext);
  }

  /** "name":"text" */
  function Quoted(name: string, text: string): string {
    ['"'] + name + ['"', ':', '"'] + text + ['"']
  }

  /** The stored text: one object of the three fields in base64, in this order. */
  lemma StoredText(f: EncryptedFrame)
    ensures FromBytes(SerializeFrame(f))
            == Some("{" + Quoted("iv", Encode(f.iv)) + "," + Quoted("tag", Encode(f.tag)) + ","
                    + Quoted("ciphertext", Encode(f.ciphertext)) + "}")
  {
    var ms := FrameMembers(f);
    FrameIsBare(f);
    PrintedIsAscii(ms);
    TextRoundTrip(Print(ms));
    PrintsThree(ms[0], ms[1], ms[2]);
    assert ms == [ms[0], ms[1], ms[2]];
    MemberText(ms[0]);
    MemberText(ms[1]);
    MemberText(ms[2]);
    hide Print, PrintMember, Quoted, Encode, FromBytes, ToBytes;
  }

  lemma MemberText(m: Member)
    ensures PrintMember(m) == Quoted(m.name, m.value)
  {
  }

  lemma PrintsThree(a: Member, b: Member, c: Member)
    ensures Print([a, b, c])
            == "{" + PrintMember(a) + "," + PrintMember(b) + "," + PrintMember(c) + "}"
  {
    hide PrintMember;
    assert [a, b, c][1..] == [b, c] && [b, c][1..] == [c];
    assert PrintMembers([c]) == PrintMember(c) + "}";
    assert PrintMembers([b, c]) == PrintMember(b) + "," + PrintMembers([c]);
    assert PrintMembers([a, b, c]) == PrintMember(a) + "," + PrintMembers([b, c]);
    hide PrintMembers;
  }

  lemma FieldsOfFrame(f: EncryptedFrame)
    ensures var ms := FrameMembers(f);
            Field(ms, "iv") == Some(Encode(f.iv)) && Field(ms, "tag") == Some(Encode(f.tag))
            && Field(ms, "ciphertext") == Some(Encode(f.ciphertext))
  {
    var ms := FrameMembers(f);
    var two := ms[..2];
    assert two[..1] == [ms[0]];
    assert Field([ms[0]], "iv") == Some(Encode(f.iv));
    assert Field(two, "iv") == Some(Encode(f.iv)) && Field(two, "tag") == Some(Encode(f.tag));
  }

  /** Among printed objects of bare strings, exactly those with all three members are accepted. */
  lemma AcceptedExactlyWhenComplete(ms: seq<Member>)
    requires BareMembers(ms)
    ensures Ascii(Print(ms))
    ensures DeserializeFrame(ToBytes(Print(ms))).Ok?
            <==> (exists i | 0 <= i < |ms| :: ms[i].name == "iv") && (exists i | 0 <= i < |ms| :: ms[i].name == "tag")
                 && (exists i | 0 <= i < |ms| :: ms[i].name == "ciphertext")
    ensures DeserializeFrame(ToBytes(Print(ms))) != Err(NotAnObject)
  {
    PrintedIsAscii(ms);
    TextRoundTrip(Print(ms));
    ParsePrint(ms);
    FieldThere(ms, "iv"); FieldThere(ms, "tag"); FieldThere(ms, "ciphertext");
  }

  lemma {:induction false} FieldThere(ms: seq<Member>, name: string)
    ensures Field(ms, name).Some? <==> exists i | 0 <= i < |ms| :: ms[i].name == name
    decreases |ms|
  {
    if ms != [] {
      FieldThere(ms[..|ms| - 1], name);
      var front := ms[..|ms| - 1];
      if exists i | 0 <= i < |front| :: front[i].name == name {
        var i :| 0 <= i < |front| && front[i].name == name;
        assert ms[i].name == name;
      }
      if i :| 0 <= i < |ms| && ms[i].name == name {
        if i < |front| { assert front[i].name == name; }
      }
    }
  }
}
