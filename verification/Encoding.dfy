/** What is charged for: texts in UTF-8 (section 3 of RFC 3629) and the JSON list of findings. */
module Encodings {
  import opened Base
  import opened Tables
  import PayloadScan

  // ---------------------------------------------------------------- UTF-8

  /** The octets of one character. */
  function Octets(c: char): (bytes: seq<int>)
    ensures forall b :: b in bytes ==> 0 <= b < 256
  {
    var u := c as int;
    if u < 0x80 then [u]
    else if u < 0x800 then [0xC0 + u / 64, 0x80 + u % 64]
    else if u < 0x10000 then [0xE0 + u / 4096, 0x80 + u / 64 % 64, 0x80 + u % 64]
    else [0xF0 + u / 262144, 0x80 + u / 4096 % 64, 0x80 + u / 64 % 64, 0x80 + u % 64]
  }

  function Utf8(s: string): seq<int> {
    if s == [] then [] else Octets(s[0]) + Utf8(s[1..])
  }

  /** The code point that a sequence of octets begins with, by the length that its first octet announces. */
  function FirstCode(bytes: seq<int>): Option<(int, int)> {
    if bytes == [] then None
    else if bytes[0] < 0x80 then Some((bytes[0], 1))
    else if 0xC0 <= bytes[0] < 0xE0 && |bytes| >= 2 then Some(((bytes[0] - 0xC0) * 64 + bytes[1] - 0x80, 2))
    else if 0xE0 <= bytes[0] < 0xF0 && |bytes| >= 3 then
      Some(((bytes[0] - 0xE0) * 4096 + (bytes[1] - 0x80) * 64 + bytes[2] - 0x80, 3))
    else if 0xF0 <= bytes[0] && |bytes| >= 4 then
      Some(((bytes[0] - 0xF0) * 262144 + (bytes[1] - 0x80) * 4096 + (bytes[2] - 0x80) * 64 + bytes[3] - 0x80, 4))
    else None
  }

  /** No two texts have the same octets: each character is read back from them. */
  lemma OctetsRoundTrip(c: char, rest: seq<int>)
    ensures FirstCode(Octets(c) + rest) == Some((c as int, |Octets(c)|))
  {
    var u := c as int;
    assert u == u / 64 * 64 + u % 64;
    assert u / 64 == u / 4096 * 64 + u / 64 % 64;
    assert u / 4096 == u / 262144 * 64 + u / 4096 % 64;
  }

  lemma {:induction false} Utf8RoundTrip(s: string, t: string)
    requires Utf8(s) == Utf8(t)
    ensures s == t
  {
    if s != [] && t != [] {
      OctetsRoundTrip(s[0], Utf8(s[1..]));
      OctetsRoundTrip(t[0], Utf8(t[1..]));
      assert s[0] == t[0];
      assert Utf8(s[1..]) == Utf8(s)[|Octets(s[0])|..];
      Utf8RoundTrip(s[1..], t[1..]);
      assert s == [s[0]] + s[1..] && t == [t[0]] + t[1..];
    }
  }

  /** The counted bytes of a text are the length of its UTF-8 octets. */
  lemma {:induction false} BytesAreUtf8(s: string)
    ensures Bytes(s) == |Utf8(s)|
  {
    if s != [] { BytesAreUtf8(s[1..]); }
  }

  // ---------------------------------------------------------------- the JSON list of findings

  function CodeName(f: PayloadScan.Finding): string {
    match f
    case EncodedPayload => "encoded_payload"
    case InstructionOverride => "instruction_override"
    case MalformedInput => "malformed_input"
    case OversizeInput => "oversize_input"
    case RoleSpoofing => "role_spoofing"
    case SecretExfiltration => "secret_exfiltration"
    case SuspiciousExecution => "suspicious_execution"
  }

  /** All codes in alphabetical order. */
  const CODES := [PayloadScan.EncodedPayload, PayloadScan.InstructionOverride, PayloadScan.MalformedInput, PayloadScan.OversizeInput,
                  PayloadScan.RoleSpoofing, PayloadScan.SecretExfiltration, PayloadScan.SuspiciousExecution]

  /** The quoted names of those codes that were found. */
  function Quoted(codes: seq<PayloadScan.Finding>, findings: Findings): seq<string> {
    if codes == [] then []
    else if codes[0] in findings then ["\"" + CodeName(codes[0]) + "\""] + Quoted(codes[1..], findings)
    else Quoted(codes[1..], findings)
  }

  function Joined(items: seq<string>): string {
    if items == [] then "" else if |items| == 1 then items[0] else items[0] + ", " + Joined(items[1..])
  }

  /** `json.dumps(sorted(findings))`. */
  function JsonList(findings: Findings): string { "[" + Joined(Quoted(CODES, findings)) + "]" }

  predicate Ascii(s: string) { forall c :: c in s ==> c < 128 as char }

  lemma {:induction false} AsciiBytes(s: string)
    requires Ascii(s)
    ensures Bytes(s) == |s|
  {
    if s != [] {
      assert s[0] in s;
      assert forall c :: c in s[1..] ==> c in s;
      AsciiBytes(s[1..]);
    }
  }

  lemma ShortNames(f: PayloadScan.Finding)
    requires f.EncodedPayload? || f.MalformedInput? || f.OversizeInput? || f.RoleSpoofing?
    ensures Ascii(CodeName(f)) && |CodeName(f)| == CodeLength(f)
  {
  }

  lemma LongNames(f: PayloadScan.Finding)
    requires f.InstructionOverride? || f.SecretExfiltration? || f.SuspiciousExecution?
    ensures Ascii(CodeName(f)) && |CodeName(f)| == CodeLength(f)
  {
  }

  lemma NamesAreAscii(f: PayloadScan.Finding)
    ensures Ascii(CodeName(f)) && |CodeName(f)| == CodeLength(f)
  {
    hide Ascii, CodeName, CodeLength;
    if f.EncodedPayload? || f.MalformedInput? || f.OversizeInput? || f.RoleSpoofing? { ShortNames(f); } else { LongNames(f); }
  }

  /** The length of a joined list, with one separator too many. */
  function Lengths(items: seq<string>): nat {
    if items == [] then 0 else |items[0]| + 2 + Lengths(items[1..])
  }

  lemma {:induction false} JoinedLength(items: seq<string>)
    requires forall i :: i in items ==> Ascii(i)
    ensures Ascii(Joined(items)) && |Joined(items)| == if items == [] then 0 else Lengths(items) - 2
  {
    if items != [] {
      assert items[0] in items;
      assert forall i :: i in items[1..] ==> i in items;
      JoinedLength(items[1..]);
      if |items| == 1 { assert items[1..] == []; }
    }
  }

  /** The same over the codes. */
  function Listed(codes: seq<PayloadScan.Finding>, findings: Findings): nat {
    if codes == [] then 0 else ListedBytes(findings, codes[0]) + Listed(codes[1..], findings)
  }

  lemma {:induction false} QuotedLengths(codes: seq<PayloadScan.Finding>, findings: Findings)
    ensures Lengths(Quoted(codes, findings)) == Listed(codes, findings)
    ensures forall i :: i in Quoted(codes, findings) ==> Ascii(i)
    ensures Quoted(codes, findings) == [] <==> Listed(codes, findings) == 0
  {
    if codes != [] {
      QuotedLengths(codes[1..], findings);
      QuotedOne(codes[0], Quoted(codes[1..], findings));
    }
  }

  lemma QuotedOne(f: PayloadScan.Finding, rest: seq<string>)
    ensures var name := "\"" + CodeName(f) + "\""; Ascii(name) && Lengths([name] + rest) == CodeLength(f) + 4 + Lengths(rest)
  {
    hide CodeName, CodeLength;
    NamesAreAscii(f);
    var name := "\"" + CodeName(f) + "\"";
    assert ([name] + rest)[1..] == rest;
  }

  lemma ListedAll(findings: Findings)
    ensures Listed(CODES, findings) ==
      ListedBytes(findings, PayloadScan.EncodedPayload) + ListedBytes(findings, PayloadScan.InstructionOverride)
      + ListedBytes(findings, PayloadScan.MalformedInput) + ListedBytes(findings, PayloadScan.OversizeInput)
      + ListedBytes(findings, PayloadScan.RoleSpoofing) + ListedBytes(findings, PayloadScan.SecretExfiltration)
      + ListedBytes(findings, PayloadScan.SuspiciousExecution)
  {
    hide ListedBytes;
    var c := CODES;
    assert c[1..][1..] == c[2..] && c[2..][1..] == c[3..] && c[3..][1..] == c[4..] && c[4..][1..] == c[5..] && c[5..][1..] == c[6..];
    assert c[6..][1..] == [];
    assert Listed(c[6..], findings) == ListedBytes(findings, c[6]);
    assert Listed(c[5..], findings) == ListedBytes(findings, c[5]) + Listed(c[6..], findings);
    assert Listed(c[4..], findings) == ListedBytes(findings, c[4]) + Listed(c[5..], findings);
    assert Listed(c[3..], findings) == ListedBytes(findings, c[3]) + Listed(c[4..], findings);
    assert Listed(c[2..], findings) == ListedBytes(findings, c[2]) + Listed(c[3..], findings);
    assert Listed(c[1..], findings) == ListedBytes(findings, c[1]) + Listed(c[2..], findings);
  }

  /** The bytes counted for findings are those of the JSON list of their codes. */
  lemma FindingsAreJson(findings: Findings)
    ensures FindingsBytes(findings) == |Utf8(JsonList(findings))|
  {
    hide ListedBytes, Quoted;
    QuotedLengths(CODES, findings);
    JoinedLength(Quoted(CODES, findings));
    ListedAll(findings);
    AsciiBytes(JsonList(findings));
    BytesAreUtf8(JsonList(findings));
  }
}
