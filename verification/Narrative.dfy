/** Author-controlled narrative, bounded and encoded (packages/worker-core/src/narrative.ts). */
module Narrative {
  import opened JsText
  import opened Utf8
  import opened Decimal

  const TITLE_BYTES: nat := 1024
  const DESCRIPTION_BYTES: nat := 64 * 1024
  const ENCODED_BYTES: nat := 400 * 1024

  datatype BoundedContent = BoundedContent(content: JsString, originalUtf8Bytes: nat, truncated: bool)

  // --- the cut -----------------------------------------------------------------

  /** Whether cutting after `k` code units leaves every code point whole. */
  predicate IsBoundary(s: JsString, k: nat)
    requires k <= |s|
  {
    k == 0 || (HeadWidth(s) <= k && IsBoundary(s[HeadWidth(s)..], k - HeadWidth(s)))
  }

  /** How many code units of whole code points fit in a byte budget. */
  function Longest(s: JsString, maximumBytes: nat): (k: nat)
    ensures k <= |s|
  {
    if s == [] || |EncodeHead(s)| > maximumBytes then 0
    else HeadWidth(s) + Longest(s[HeadWidth(s)..], maximumBytes - |EncodeHead(s)|)
  }

  function Bounded(s: JsString, maximumBytes: nat): BoundedContent {
    if |Encode(s)| <= maximumBytes then BoundedContent(s, |Encode(s)|, false)
    else BoundedContent(Sanitized(s[..Longest(s, maximumBytes)]), |Encode(s)|, true)
  }

  lemma HeadOfPrefix(s: JsString, k: nat)
    requires s != [] && HeadWidth(s) <= k <= |s|
    ensures HeadWidth(s[..k]) == HeadWidth(s) && EncodeHead(s[..k]) == EncodeHead(s)
    ensures s[..k][HeadWidth(s)..] == s[HeadWidth(s)..][..k - HeadWidth(s)]
    ensures Encode(s[..k]) == EncodeHead(s) + Encode(s[HeadWidth(s)..][..k - HeadWidth(s)])
  {
    assert s[..k][0] == s[0];
    assert k > 1 ==> s[..k][1] == s[1];
  }

  predicate Fits(s: JsString, j: nat, maximumBytes: nat)
    requires j <= |s|
  {
    IsBoundary(s, j) && |Encode(s[..j])| <= maximumBytes
  }

  /** A boundary past the first code point fits exactly when what follows it does in what is
      left. */
  lemma FitsPastHead(s: JsString, j: nat, maximumBytes: nat)
    requires s != [] && HeadWidth(s) <= j <= |s|
    ensures Fits(s, j, maximumBytes) <==>
      |EncodeHead(s)| <= maximumBytes && Fits(s[HeadWidth(s)..], j - HeadWidth(s), maximumBytes - |EncodeHead(s)|)
  {
    HeadOfPrefix(s, j);
  }

  /** The kept prefix is at a boundary and fits; every boundary that fits is in it. */
  lemma {:induction false} LongestIsLongest(s: JsString, maximumBytes: nat)
    ensures var k := Longest(s, maximumBytes);
      Fits(s, k, maximumBytes) && forall j :: 0 <= j <= |s| && Fits(s, j, maximumBytes) ==> j <= k
  {
    var k := Longest(s, maximumBytes);
    if s == [] || |EncodeHead(s)| > maximumBytes {
      assert s[..0] == [];
      forall j | 0 < j <= |s| ensures !Fits(s, j, maximumBytes) {
        if HeadWidth(s) <= j {
          FitsPastHead(s, j, maximumBytes);
        }
      }
    } else {
      LongestIsLongest(s[HeadWidth(s)..], maximumBytes - |EncodeHead(s)|);
      FitsPastHead(s, k, maximumBytes);
      forall j | 0 < j <= |s| && Fits(s, j, maximumBytes) ensures j <= k {
        FitsPastHead(s, j, maximumBytes);
      }
    }
  }

  /** Where the walk back from the limit stops: at most three bytes down, on the
      first byte after the kept prefix, having passed continuation bytes only. */
  lemma {:induction false} WalkBack(s: JsString, maximumBytes: nat)
    requires maximumBytes < |Encode(s)|
    ensures var k := Longest(s, maximumBytes);
      var end := |Encode(s[..k])|;
      && end <= maximumBytes <= end + 3
      && Encode(s)[..end] == Encode(s[..k])
      && !IsContinuation(Encode(s)[end])
      && forall i :: end < i <= maximumBytes ==> IsContinuation(Encode(s)[i])
  {
    var head, rest := EncodeHead(s), s[HeadWidth(s)..];
    if |head| > maximumBytes {
      assert s[..0] == [];
      assert forall i :: 0 <= i <= maximumBytes ==> Encode(s)[i] == head[i];
    } else {
      var left := maximumBytes - |head|;
      var kept := rest[..Longest(rest, left)];
      WalkBack(rest, left);
      HeadOfPrefix(s, Longest(s, maximumBytes));
      assert Encode(s[..Longest(s, maximumBytes)]) == head + Encode(kept);
      Shifted(head, Encode(rest), |Encode(kept)|);
      forall i | |head| + |Encode(kept)| < i <= maximumBytes ensures IsContinuation(Encode(s)[i]) {
        assert Encode(s)[i] == Encode(rest)[i - |head|];
      }
    }
  }

  lemma Shifted(a: seq<Byte>, b: seq<Byte>, n: nat)
    requires n <= |b|
    ensures (a + b)[..|a| + n] == a + b[..n]
    ensures forall i :: |a| <= i < |a| + |b| ==> (a + b)[i] == b[i - |a|]
  {
  }

  /** The walk from the limit down to the first byte that continues nothing. */
  method CutEnd(buffer: seq<Byte>, maximumBytes: nat, ghost floor: nat) returns (end: nat)
    requires floor <= maximumBytes < |buffer| && !IsContinuation(buffer[floor])
    requires forall i :: floor < i <= maximumBytes ==> IsContinuation(buffer[i])
    ensures end == floor
  {
    end := maximumBytes;
    while end > 0 && IsContinuation(buffer[end])
      invariant floor <= end <= maximumBytes
    {
      end := end - 1;
    }
  }

  /** Cuts a field to a byte count, at the end of a code point. */
  method Bound(content: JsString, maximumBytes: nat) returns (r: BoundedContent)
    ensures r == Bounded(content, maximumBytes)
    ensures |Encode(r.content)| <= maximumBytes
    ensures r.truncated ==> maximumBytes <= |Encode(r.content)| + 3
  {
    var buffer := Encode(content);
    BoundedFits(content, maximumBytes);
    if |buffer| <= maximumBytes {
      return BoundedContent(content, |buffer|, false);
    }
    WalkBack(content, maximumBytes);
    DecodeEncode(content[..Longest(content, maximumBytes)]);
    var end := CutEnd(buffer, maximumBytes, |Encode(content[..Longest(content, maximumBytes)])|);
    r := BoundedContent(Decode(buffer[..end]), |buffer|, true);
  }

  lemma {:induction false} EncodeSanitized(s: JsString)
    ensures Encode(Sanitized(s)) == Encode(s)
  {
    if s != [] {
      var w := HeadWidth(s);
      EncodeSanitized(s[w..]);
      var head := if IsLone(s) then [REPLACEMENT] else s[..w];
      var t := Sanitized(s);
      assert t == head + Sanitized(s[w..]);
      assert t[0] == head[0] && (w > 1 ==> t[1] == head[1]);
      assert HeadWidth(t) == w && HeadScalar(t) == HeadScalar(s);
      assert t[w..] == Sanitized(s[w..]);
    }
  }

  lemma BoundedFits(s: JsString, maximumBytes: nat)
    ensures var r := Bounded(s, maximumBytes);
      && |Encode(r.content)| <= maximumBytes
      && (r.truncated ==> maximumBytes <= |Encode(r.content)| + 3)
  {
    if |Encode(s)| > maximumBytes {
      WalkBack(s, maximumBytes);
      EncodeSanitized(s[..Longest(s, maximumBytes)]);
    }
  }

  /** The cut content is a prefix of what the Author wrote exactly when the prefix it
      keeps holds no lone surrogate; text of Unicode scalar values holds none. */
  lemma CutIsPrefix(s: JsString, maximumBytes: nat)
    requires Bounded(s, maximumBytes).truncated
    ensures Bounded(s, maximumBytes).content <= s <==> WellFormed(s[..Longest(s, maximumBytes)])
    ensures WellFormed(s) ==> Bounded(s, maximumBytes).content == s[..Longest(s, maximumBytes)]
  {
    var k := Longest(s, maximumBytes);
    SanitizedKeeps(s[..k]);
    if WellFormed(s) {
      WellFormedPrefix(s, maximumBytes);
    }
  }

  lemma {:induction false} WellFormedPrefix(s: JsString, maximumBytes: nat)
    requires WellFormed(s)
    ensures WellFormed(s[..Longest(s, maximumBytes)])
  {
    if s != [] && |EncodeHead(s)| <= maximumBytes {
      HeadOfPrefix(s, Longest(s, maximumBytes));
      WellFormedPrefix(s[HeadWidth(s)..], maximumBytes - |EncodeHead(s)|);
      assert IsLone(s[..Longest(s, maximumBytes)]) == IsLone(s);
    }
  }

  // --- the file ----------------------------------------------------------------

  datatype NarrativeRecord = NarrativeRecord(
    surface: string, present: bool, content: JsString, originalUtf8Bytes: nat, truncated: bool)

  datatype NarrativeOutcome = File(bytes: JsString) | TitleMissing

  datatype Description = NoDescription | Description(text: JsString)

  function Record(surface: string, value: Description, maximumBytes: nat): NarrativeRecord {
    match value
    case NoDescription => NarrativeRecord(surface, false, [], 0, false)
    case Description(text) =>
      var b := Bounded(text, maximumBytes);
      NarrativeRecord(surface, true, b.content, b.originalUtf8Bytes, b.truncated)
  }

  function Flag(b: bool): (s: string)
    ensures |s| <= 5
  {
    if b then "true" else "false"
  }

  /** The members in front of the content, up to its opening quote. */
  function Opening(r: NarrativeRecord): (s: string)
    ensures |s| <= |r.surface| + 59
  {
    "{\"surface\":\"" + r.surface + "\",\"authority\":\"none\",\"present\":" + Flag(r.present) + ",\"content\":"
  }

  /** The members after the content. */
  function Closing(r: NarrativeRecord): (s: string)
    ensures |s| <= |Digits(r.originalUtf8Bytes)| + 40
  {
    ",\"originalUtf8Bytes\":" + Digits(r.originalUtf8Bytes) + ",\"truncated\":" + Flag(r.truncated) + "}"
  }

  /** One record as `JSON.stringify` writes it, members in declaration order. */
  function RecordText(r: NarrativeRecord): JsString {
    Ascii(Opening(r)) + Quoted(r.content) + Ascii(Closing(r))
  }

  const TITLE: string := "pull_request.title"
  const DESCRIPTION: string := "pull_request.description"

  const HEADER: string := "{\"schemaVersion\":1,\"records\":["

  function FileText(title: JsString, description: Description): JsString {
    Ascii(HEADER) + RecordText(Record(TITLE, Description(title), TITLE_BYTES)) + Ascii(",")
    + RecordText(Record(DESCRIPTION, description, DESCRIPTION_BYTES)) + Ascii("]}")
  }

  function EncodeNarrative(title: JsString, description: Description): NarrativeOutcome {
    if title == [] then TitleMissing else File(FileText(title, description))
  }

  /** The worst escape turns one byte into six. */
  lemma {:induction false} EscapeExpansion(s: JsString)
    ensures |Encode(Escape(s))| <= 6 * |Encode(s)|
    ensures Escape(s) == [] || !IsLow(Escape(s)[0])
  {
    if s != [] {
      var rest := s[HeadWidth(s)..];
      EscapeExpansion(rest);
      EncodeConcat(EscapeHead(s), Escape(rest));
      if StartsPair(s) {
        var head := s[..2];
        assert head[HeadWidth(head)..] == [];
        assert Encode(head) == EncodeHead(head) + [];
      } else if IsAscii(EscapeHead(s)) {
        EncodeAscii(EscapeHead(s));
      } else {
        var head := s[..1];
        assert head[HeadWidth(head)..] == [];
        assert Encode(head) == EncodeHead(head) + [] && EncodeHead(head) == EncodeHead(s);
      }
    }
  }

  lemma QuotedSize(s: JsString)
    ensures |Encode(Quoted(s))| <= 6 * |Encode(s)| + 2
  {
    var body := Escape(s);
    EscapeExpansion(s);
    EncodeConcat(body, [QUOTE]);
    EncodeConcat([QUOTE], body + [QUOTE]);
    EncodeAscii([QUOTE]);
    assert Quoted(s) == [QUOTE] + (body + [QUOTE]);
  }

  lemma EncodeAround(a: string, s: JsString, b: string)
    requires s != [] && !IsLow(s[0])
    ensures |Encode(Ascii(a) + s + Ascii(b))| == |a| + |Encode(s)| + |b|
  {
    EncodeConcat(Ascii(a) + s, Ascii(b));
    EncodeConcat(Ascii(a), s);
    EncodeAscii(Ascii(a));
    EncodeAscii(Ascii(b));
  }

  /** One record costs six bytes for each byte of content, and its schema. */
  lemma RecordSize(r: NarrativeRecord)
    ensures |Encode(RecordText(r))| <= 6 * |Encode(r.content)| + |r.surface| + |Digits(r.originalUtf8Bytes)| + 101
  {
    QuotedSize(r.content);
    EncodeAround(Opening(r), Quoted(r.content), Closing(r));
  }

  lemma RecordTextOpens(r: NarrativeRecord)
    ensures RecordText(r) != [] && !IsLow(RecordText(r)[0])
  {
    assert Opening(r) == [] || RecordText(r)[0] == Ascii(Opening(r))[0];
  }

  /** The whole file: six bytes for each byte the two limits admit, the fixed schema,
      and the two counts in decimal. */
  lemma FileSize(title: JsString, description: Description)
    ensures |Encode(FileText(title, description))|
      <= 6 * (TITLE_BYTES + DESCRIPTION_BYTES) + 300
       + |Digits(Record(TITLE, Description(title), TITLE_BYTES).originalUtf8Bytes)|
       + |Digits(Record(DESCRIPTION, description, DESCRIPTION_BYTES).originalUtf8Bytes)|
  {
    var t := Record(TITLE, Description(title), TITLE_BYTES);
    var d := Record(DESCRIPTION, description, DESCRIPTION_BYTES);
    RecordWithin(TITLE, Description(title), TITLE_BYTES);
    RecordWithin(DESCRIPTION, description, DESCRIPTION_BYTES);
    RecordSize(t);
    RecordSize(d);
    RecordTextOpens(t);
    RecordTextOpens(d);
    TwoRecordsSize(HEADER, RecordText(t), RecordText(d));
  }

  lemma TwoRecordsSize(header: string, a: JsString, b: JsString)
    requires a != [] && !IsLow(a[0]) && b != [] && !IsLow(b[0])
    ensures |Encode(Ascii(header) + a + Ascii(",") + b + Ascii("]}"))|
         == |header| + |Encode(a)| + |Encode(b)| + 3
  {
    var front := Ascii(header) + a + Ascii(",");
    EncodeAround(header, a, ",");
    EncodeConcat(front, b);
    EncodeConcat(front + b, Ascii("]}"));
    EncodeAscii(Ascii("]}"));
  }

  lemma RecordWithin(surface: string, value: Description, maximumBytes: nat)
    ensures |Encode(Record(surface, value, maximumBytes).content)| <= maximumBytes
    ensures Record(surface, value, maximumBytes).surface == surface
  {
    if value.Description? {
      BoundedFits(value.text, maximumBytes);
    }
  }

  /** The encoded limit is never exceeded: a title and a description whose byte counts
      print in sixteen digits each give a file of at most 400 KiB. */
  lemma EncodedBound(title: JsString, description: Description)
    requires |Encode(title)| < Pow10(16)
    requires description.Description? ==> |Encode(description.text)| < Pow10(16)
    ensures EncodeNarrative(title, description).File?
      ==> |Encode(EncodeNarrative(title, description).bytes)| <= ENCODED_BYTES
  {
    FileSize(title, description);
    DigitCount(Record(TITLE, Description(title), TITLE_BYTES).originalUtf8Bytes, 16);
    DigitCount(Record(DESCRIPTION, description, DESCRIPTION_BYTES).originalUtf8Bytes, 16);
  }
}
