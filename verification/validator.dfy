/**
  Validation of the comma-separated list field: trim the whole text, reject it
  when nothing is left, split it on ',', trim and parse every segment, and stop
  at the first segment that does not parse. The number parser is a parameter:
  `None` stands for the NaN that `parseFloat` returns on text it cannot read.
 */
module Validator {
  import opened Errors

  /** The characters JavaScript's `trim` removes: white space and line terminators. */
  predicate IsWhitespace(c: char)
  {
    || c == '\t' || c == '\n' || c == '\U{B}' || c == '\U{C}' || c == '\r'
    || c == ' ' || c == '\U{A0}' || c == '\U{1680}'
    || ('\U{2000}' <= c <= '\U{200A}')
    || c == '\U{2028}' || c == '\U{2029}' || c == '\U{202F}' || c == '\U{205F}'
    || c == '\U{3000}' || c == '\U{FEFF}'
  }

  predicate AllWhitespace(s: string)
  {
    forall i :: 0 <= i < |s| ==> IsWhitespace(s[i])
  }

  /** Length of the longest all-white-space prefix of `s`. */
  function LeadingSpace(s: string): (k: nat)
    ensures k <= |s|
    ensures forall i :: 0 <= i < k ==> IsWhitespace(s[i])
    ensures k < |s| ==> !IsWhitespace(s[k])
  {
    if s != [] && IsWhitespace(s[0]) then 1 + LeadingSpace(s[1..]) else 0
  }

  /** Length of the longest all-white-space suffix of `s`. */
  function TrailingSpace(s: string): (k: nat)
    ensures k <= |s|
    ensures forall i :: |s| - k <= i < |s| ==> IsWhitespace(s[i])
    ensures k < |s| ==> !IsWhitespace(s[|s| - k - 1])
  {
    if s != [] && IsWhitespace(s[|s| - 1]) then 1 + TrailingSpace(s[..|s| - 1]) else 0
  }

  /** JavaScript's `trim`: `s` without the white space at either end. */
  function Trim(s: string): string
  {
    var t := s[LeadingSpace(s)..];
    t[..|t| - TrailingSpace(t)]
  }

  /**
    Trimming keeps a contiguous part of the text: everything it drops is
    white space, and what it keeps neither starts nor ends with white space.
   */
  lemma TrimSpec(s: string)
    ensures LeadingSpace(s) + |Trim(s)| <= |s|
    ensures Trim(s) == s[LeadingSpace(s)..LeadingSpace(s) + |Trim(s)|]
    ensures forall i :: 0 <= i < LeadingSpace(s) || LeadingSpace(s) + |Trim(s)| <= i < |s| ==> IsWhitespace(s[i])
    ensures Trim(s) != [] ==> !IsWhitespace(Trim(s)[0]) && !IsWhitespace(Trim(s)[|Trim(s)| - 1])
  {
  }

  /** Trimming leaves nothing exactly when the text is all white space. */
  lemma TrimEmpty(s: string)
    ensures Trim(s) == [] <==> AllWhitespace(s)
  {
    TrimSpec(s);
  }

  /** Trimming twice is trimming once. */
  lemma TrimIdempotent(s: string)
    ensures Trim(Trim(s)) == Trim(s)
  {
    TrimSpec(s);
    var r := Trim(s);
    if r != [] {
      assert LeadingSpace(r) == 0;
      assert TrailingSpace(r) == 0;
    }
  }

  /** Text that neither starts nor ends with white space is its own trim. */
  lemma TrimUntouched(s: string)
    requires s != [] && !IsWhitespace(s[0]) && !IsWhitespace(s[|s| - 1])
    ensures Trim(s) == s
  {
    TrimSpec(s);
    assert LeadingSpace(s) == 0;
  }

  /** White space in front of a text is removed by trimming. */
  lemma TrimLeading(s: string)
    requires s != [] && IsWhitespace(s[0])
    ensures Trim(s) == Trim(s[1..])
  {
    assert LeadingSpace(s) == 1 + LeadingSpace(s[1..]);
    assert s[LeadingSpace(s)..] == s[1..][LeadingSpace(s[1..])..];
  }

  /** Number of commas in `s`. */
  function Commas(s: string): nat
  {
    if s == [] then 0 else (if s[0] == ',' then 1 else 0) + Commas(s[1..])
  }

  /** JavaScript's `s.split(",")`: the pieces between the commas, in order. */
  function Split(s: string): (parts: seq<string>)
    ensures |parts| >= 1
  {
    if s == [] then [""]
    else
      var rest := Split(s[1..]);
      if s[0] == ',' then [""] + rest else [[s[0]] + rest[0]] + rest[1..]
  }

  /** Puts the pieces back together with a comma between each two. */
  function Join(parts: seq<string>): string
    requires |parts| >= 1
  {
    if |parts| == 1 then parts[0] else parts[0] + "," + Join(parts[1..])
  }

  predicate NoCommas(parts: seq<string>)
  {
    forall i :: 0 <= i < |parts| ==> ',' !in parts[i]
  }

  /**
    Splitting on ',' yields one more piece than there are commas, none of
    the pieces holds a comma, and joining them gives the text back.
   */
  lemma {:induction false} SplitJoin(s: string)
    ensures |Split(s)| == Commas(s) + 1
    ensures NoCommas(Split(s))
    ensures Join(Split(s)) == s
  {
    if s != [] {
      SplitJoin(s[1..]);
      var rest := Split(s[1..]);
      if s[0] == ',' {
        assert Split(s)[1..] == rest;
        assert s == [','] + s[1..];
      } else {
        var parts := Split(s);
        assert parts[1..] == rest[1..];
        assert ',' !in parts[0];
        if |rest| == 1 {
          assert s == [s[0]] + rest[0];
        } else {
          assert Join(rest) == rest[0] + "," + Join(rest[1..]);
          assert s == [s[0]] + rest[0] + "," + Join(rest[1..]);
        }
      }
    }
  }

  /** Splitting a comma-free piece followed by a comma and more text. */
  lemma {:induction false} SplitAfterPiece(p: string, s: string)
    requires ',' !in p
    ensures Split(p + "," + s) == [p] + Split(s)
  {
    if p != [] {
      SplitAfterPiece(p[1..], s);
      assert (p + "," + s)[1..] == p[1..] + "," + s;
      assert [p[0]] + p[1..] == p;
    } else {
      assert (p + "," + s)[1..] == s;
    }
  }

  /** A comma-free text splits into itself. */
  lemma {:induction false} SplitPiece(p: string)
    requires ',' !in p
    ensures Split(p) == [p]
  {
    if p != [] {
      SplitPiece(p[1..]);
      assert [p[0]] + p[1..] == p;
    }
  }

  /** Joining comma-free pieces and splitting again gives the same pieces. */
  lemma {:induction false} JoinSplit(parts: seq<string>)
    requires |parts| >= 1 && NoCommas(parts)
    ensures Split(Join(parts)) == parts
  {
    if |parts| == 1 {
      SplitPiece(parts[0]);
    } else {
      JoinSplit(parts[1..]);
      SplitAfterPiece(parts[0], Join(parts[1..]));
    }
  }

  /**
    Index of the first segment whose trimmed text does not parse, or the
    number of segments when every segment parses.
   */
  function FirstUnparsable(segments: seq<string>, parseFloat: string -> Option<real>): (k: nat)
    ensures k <= |segments|
    ensures forall i :: 0 <= i < k ==> parseFloat(Trim(segments[i])).Some?
    ensures k < |segments| ==> parseFloat(Trim(segments[k])).None?
  {
    if segments == [] || parseFloat(Trim(segments[0])).None? then 0
    else 1 + FirstUnparsable(segments[1..], parseFloat)
  }

  /**
    The `map` over the segments: each trimmed segment is parsed, and the
    first one that does not parse aborts with an error naming it.
   */
  function ParseSegments(segments: seq<string>, parseFloat: string -> Option<real>): Result<seq<real>>
  {
    if segments == [] then Ok([])
    else
      match parseFloat(Trim(segments[0]))
      case None => Err(InvalidValue(Trim(segments[0])))
      case Some(x) =>
        match ParseSegments(segments[1..], parseFloat)
        case Err(e) => Err(e)
        case Ok(xs) => Ok([x] + xs)
  }

  /**
    Parsing the segments fails exactly when some segment does not parse, with
    the error naming the leftmost one (trimmed); otherwise it yields one value
    per segment, in order.
   */
  lemma {:induction false} ParseSegmentsSpec(segments: seq<string>, parseFloat: string -> Option<real>)
    ensures ParseSegments(segments, parseFloat).Err? <==> FirstUnparsable(segments, parseFloat) < |segments|
    ensures ParseSegments(segments, parseFloat).Err? ==>
      ParseSegments(segments, parseFloat).error == InvalidValue(Trim(segments[FirstUnparsable(segments, parseFloat)]))
    ensures ParseSegments(segments, parseFloat).Ok? ==>
      var values := ParseSegments(segments, parseFloat).value;
      && |values| == |segments|
      && forall i :: 0 <= i < |segments| ==> parseFloat(Trim(segments[i])) == Some(values[i])
  {
    if segments != [] && parseFloat(Trim(segments[0])).Some? {
      var tail := segments[1..];
      ParseSegmentsSpec(tail, parseFloat);
      if ParseSegments(segments, parseFloat).Ok? {
        var values := ParseSegments(segments, parseFloat).value;
        forall i | 0 <= i < |segments|
          ensures parseFloat(Trim(segments[i])) == Some(values[i])
        {
          if i > 0 {
            assert segments[i] == tail[i - 1];
          }
        }
      }
    }
  }

  /** After segments that all parse, a segment that does not parse decides the error. */
  lemma {:induction false} FailsAt(prefix: seq<string>, bad: string, more: seq<string>,
                                   parseFloat: string -> Option<real>)
    requires forall i :: 0 <= i < |prefix| ==> parseFloat(Trim(prefix[i])).Some?
    requires parseFloat(Trim(bad)).None?
    ensures ParseSegments(prefix + [bad] + more, parseFloat) == Err(InvalidValue(Trim(bad)))
  {
    var all := prefix + [bad] + more;
    if prefix == [] {
      assert all[0] == bad;
    } else {
      FailsAt(prefix[1..], bad, more, parseFloat);
      assert all[0] == prefix[0];
      assert all[1..] == prefix[1..] + [bad] + more;
    }
  }

  /**
    Segments to the right of the first unparsable one do not affect the
    outcome: whatever follows it, the error names that segment.
   */
  lemma FailureIgnoresRest(segments: seq<string>, more: seq<string>, parseFloat: string -> Option<real>)
    requires FirstUnparsable(segments, parseFloat) < |segments|
    ensures var k := FirstUnparsable(segments, parseFloat);
      && ParseSegments(segments[..k + 1] + more, parseFloat) == Err(InvalidValue(Trim(segments[k])))
      && ParseSegments(segments, parseFloat) == Err(InvalidValue(Trim(segments[k])))
  {
    var k := FirstUnparsable(segments, parseFloat);
    var prefix := segments[..k];
    assert segments[..k + 1] + more == prefix + [segments[k]] + more;
    assert segments == prefix + [segments[k]] + segments[k + 1..];
    FailsAt(prefix, segments[k], more, parseFloat);
    FailsAt(prefix, segments[k], segments[k + 1..], parseFloat);
  }

  /**
    Validation of the list field: the trimmed text must not be empty, and
    every segment between commas must parse.
   */
  function ValidateList(list: string, parseFloat: string -> Option<real>): Result<seq<real>>
  {
    var listStr := Trim(list);
    if listStr == [] then Err(EmptyList)
    else
      match ParseSegments(Split(listStr), parseFloat)
      case Err(e) => Err(e)
      case Ok(values) => if |values| == 0 then Err(NoValues) else Ok(values)
  }

  /**
    What validating the list field yields: EmptyList exactly for text that is
    all white space, otherwise the first unparsable segment's error, otherwise
    one value per segment (commas + 1 of them, in order); no other error, so never NoValues.
   */
  lemma ValidateListSpec(list: string, parseFloat: string -> Option<real>)
    ensures ValidateList(list, parseFloat) == Err(EmptyList) <==> AllWhitespace(list)
    ensures ValidateList(list, parseFloat).Err? ==>
      ValidateList(list, parseFloat).error == EmptyList || ValidateList(list, parseFloat).error.InvalidValue?
    ensures !AllWhitespace(list) ==>
      var segments := Split(Trim(list));
      var k := FirstUnparsable(segments, parseFloat);
      && (k < |segments| ==> ValidateList(list, parseFloat) == Err(InvalidValue(Trim(segments[k]))))
      && (k == |segments| ==> ValidateList(list, parseFloat) == ParseSegments(segments, parseFloat))
    ensures ValidateList(list, parseFloat).Ok? ==>
      |ValidateList(list, parseFloat).value| == Commas(Trim(list)) + 1
  {
    TrimEmpty(list);
    SplitJoin(Trim(list));
    ParseSegmentsSpec(Split(Trim(list)), parseFloat);
  }

  /** "1,a,3": the error names the segment "a", whatever "3" parses to. */
  lemma InvalidSegmentExample(parseFloat: string -> Option<real>)
    requires parseFloat("1").Some? && parseFloat("a").None?
    ensures ValidateList("1,a,3", parseFloat) == Err(InvalidValue("a"))
  {
    TrimUntouched("1,a,3");
    assert Join(["1", "a", "3"]) == "1,a,3";
    JoinSplit(["1", "a", "3"]);
    TrimUntouched("1");
    TrimUntouched("a");
    var segments := ["1", "a", "3"];
    assert ParseSegments(segments[1..], parseFloat) == Err(InvalidValue("a"));
  }

  /** Three segments that each parse yield their three values, in order. */
  lemma ParseThree(a: string, b: string, c: string, x: real, y: real, z: real,
                   parseFloat: string -> Option<real>)
    requires parseFloat(Trim(a)) == Some(x)
    requires parseFloat(Trim(b)) == Some(y)
    requires parseFloat(Trim(c)) == Some(z)
    ensures ParseSegments([a, b, c], parseFloat) == Ok([x, y, z])
  {
    assert ParseSegments([], parseFloat) == Ok([]);
    ParseSegmentsCons(c, [], z, [], parseFloat);
    assert [c] + [] == [c] && [z] + [] == [z];
    ParseSegmentsCons(b, [c], y, [z], parseFloat);
    assert [b] + [c] == [b, c] && [y] + [z] == [y, z];
    ParseSegmentsCons(a, [b, c], x, [y, z], parseFloat);
    assert [a] + [b, c] == [a, b, c] && [x] + [y, z] == [x, y, z];
  }

  /** One more parsable segment in front of segments that all parse. */
  lemma ParseSegmentsCons(segment: string, rest: seq<string>, x: real, xs: seq<real>,
                          parseFloat: string -> Option<real>)
    requires parseFloat(Trim(segment)) == Some(x)
    requires ParseSegments(rest, parseFloat) == Ok(xs)
    ensures ParseSegments([segment] + rest, parseFloat) == Ok([x] + xs)
  {
    assert ([segment] + rest)[1..] == rest;
  }

  /**
    The component's starting list "1.0, 2.0, 3.0": with a parser that reads
    the three numerals, validation yields [1.0, 2.0, 3.0].
   */
  lemma SampleListExample(parseFloat: string -> Option<real>)
    requires parseFloat("1.0") == Some(1.0)
    requires parseFloat("2.0") == Some(2.0)
    requires parseFloat("3.0") == Some(3.0)
    ensures ValidateList("1.0, 2.0, 3.0", parseFloat) == Ok([1.0, 2.0, 3.0])
  {
    SampleSplit();
    TrimUntouched("1.0");
    SampleTrim(" 2.0", "2.0");
    SampleTrim(" 3.0", "3.0");
    ParseThree("1.0", " 2.0", " 3.0", 1.0, 2.0, 3.0, parseFloat);
  }

  /** The starting list is already trimmed and splits into "1.0", " 2.0" and " 3.0". */
  lemma SampleSplit()
    ensures Trim("1.0, 2.0, 3.0") == "1.0, 2.0, 3.0"
    ensures Split("1.0, 2.0, 3.0") == ["1.0", " 2.0", " 3.0"]
  {
    TrimUntouched("1.0, 2.0, 3.0");
    var segments := ["1.0", " 2.0", " 3.0"];
    assert Join(segments) == "1.0, 2.0, 3.0";
    JoinSplit(segments);
  }

  /** A segment of the starting list loses its one leading space when trimmed. */
  lemma SampleTrim(segment: string, numeral: string)
    requires (segment == " 2.0" && numeral == "2.0") || (segment == " 3.0" && numeral == "3.0")
    ensures Trim(segment) == numeral
  {
    TrimLeading(segment);
    assert segment[1..] == numeral;
    TrimUntouched(numeral);
  }
}
