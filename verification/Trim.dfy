// Cleaning up what a child printed before it is logged: the index arithmetic on
// the read buffer, and what it amounts to.
module Trim {

  const BUF_SIZE := 4096

  // The text of a NUL-terminated buffer.
  function CString(data: seq<char>): (r: string)
    ensures r <= data && '\0' !in r
    ensures |r| < |data| ==> data[|r|] == '\0'
  {
    if data == [] || data[0] == '\0' then [] else [data[0]] + CString(data[1..])
  }

  function StripLeft(text: string): (r: string)
    ensures r == [] || r[0] != '\n'
  {
    if text != [] && text[0] == '\n' then StripLeft(text[1..]) else text
  }

  lemma {:induction false} StripLeftCuts(text: string)
    ensures |StripLeft(text)| <= |text| && StripLeft(text) == text[|text| - |StripLeft(text)|..]
    ensures forall k | 0 <= k < |text| - |StripLeft(text)| :: text[k] == '\n'
  {
    if text != [] && text[0] == '\n' {
      StripLeftCuts(text[1..]);
      var r := StripLeft(text);
      assert r == text[1..][|text| - 1 - |r|..] == text[|text| - |r|..];
      assert forall k | 1 <= k < |text| - |r| :: text[k] == text[1..][k - 1];
    }
  }

  function StripRight(text: string): (r: string)
    ensures r <= text
    ensures forall k | |r| <= k < |text| :: text[k] == '\n'
    ensures r == [] || r[|r| - 1] != '\n'
  {
    if text != [] && text[|text| - 1] == '\n' then StripRight(text[..|text| - 1]) else text
  }

  // What is logged of the bytes that were read.  A NUL byte ends the text, and
  // then only the newlines in front of it are stripped.
  function Output(data: seq<char>): string {
    if '\0' in data then StripLeft(CString(data)) else StripRight(StripLeft(data))
  }

  // `nchars` is what read() returned, negative for an error; the rest of the
  // buffer is still zero.
  method TrimOutput(buf: array<char>, nchars: int) returns (str: string)
    requires buf.Length == BUF_SIZE + 1 && nchars <= BUF_SIZE
    requires forall k | 0 <= k < buf.Length && nchars <= k :: buf[k] == '\0'
    ensures str == Output(if nchars < 0 then [] else buf[..nchars])
  {
    hide Output, CString;
    ghost var data := if nchars < 0 then [] else buf[..nchars];
    str := CString(buf[..]);
    CStringOfBuffer(buf[..], data);
    var begin := 0;
    while begin < nchars
      invariant 0 <= begin <= |data|
      invariant forall k | 0 <= k < begin :: data[k] == '\n'
    {
      if buf[begin] != '\n' {
        break;
      }
      begin := begin + 1;
    }
    assert begin == |data| || data[begin] != '\n';
    var end := nchars - 1;
    while end > begin
      invariant end <= nchars - 1
      invariant begin < nchars ==> begin <= end
      invariant forall k | 0 <= k < |data| && end < k :: data[k] == '\n'
    {
      if buf[end] != '\n' {
        break;
      }
      end := end - 1;
    }
    assert end <= begin || data[end] != '\n';
    BeginInRange(data, begin);
    Assembled(data, begin, end);
    if begin > 0 {
      str := str[begin..];
    }
    if end < nchars - 1 && end >= begin && begin >= 0 {
      str := Substr(str, end - begin + 1);
    }
  }

  // std::string::substr(0, count): a count past the end is cut off there.
  function Substr(text: string, count: nat): string {
    if count <= |text| then text[..count] else text
  }

  lemma {:induction false} CStringOfBuffer(buffer: seq<char>, data: seq<char>)
    requires data < buffer && forall k | |data| <= k < |buffer| :: buffer[k] == '\0'
    ensures CString(buffer) == CString(data)
  {
    hide CString;
    assert buffer[|data|] == '\0';
    assert |CString(buffer)| == |CString(data)|;
  }

  // The first substr never starts past the end of the text.
  lemma {:induction false} BeginInRange(data: seq<char>, begin: nat)
    requires begin <= |data| && forall k | 0 <= k < begin :: data[k] == '\n'
    ensures begin <= |CString(data)|
  {
    hide CString;
    if |CString(data)| < begin {
      assert data[|CString(data)|] == '\0';
    }
  }

  // What the two index loops and the two cuts produce.
  lemma {:induction false} Assembled(data: seq<char>, begin: nat, end: int)
    requires begin <= |CString(data)| && forall k | 0 <= k < begin :: data[k] == '\n'
    requires begin == |data| || data[begin] != '\n'
    requires end < |data| && (begin < |data| ==> begin <= end)
    requires forall k | 0 <= k < |data| && end < k :: data[k] == '\n'
    requires end <= begin || data[end] != '\n'
    ensures var rest := CString(data)[begin..];
      Output(data) == if end < |data| - 1 && end >= begin then Substr(rest, end - begin + 1) else rest
  {
    hide CString, StripLeft, StripRight;
    if '\0' in data {
      AssembledWithNul(data, begin, end);
    } else {
      assert CString(data) == data;
      AssembledPlain(data, begin, end);
    }
  }

  lemma {:induction false} AssembledPlain(data: seq<char>, begin: nat, end: int)
    requires begin <= |data| && forall k | 0 <= k < begin :: data[k] == '\n'
    requires begin == |data| || data[begin] != '\n'
    requires end < |data| && (begin < |data| ==> begin <= end)
    requires forall k | 0 <= k < |data| && end < k :: data[k] == '\n'
    requires end <= begin || data[end] != '\n'
    ensures var rest := data[begin..];
      StripRight(StripLeft(data)) == if end < |data| - 1 && end >= begin then Substr(rest, end - begin + 1) else rest
  {
    hide StripLeft, StripRight;
    StripLeftAt(data, begin);
    var rest := data[begin..];
    if begin == |data| {
      StripRightAt(rest, 0);
    } else {
      var count := end - begin + 1;
      assert rest[count - 1] == data[end];
      assert forall k | count <= k < |rest| :: rest[k] == data[begin + k];
      StripRightAt(rest, count);
    }
  }

  // A NUL byte is no newline, so the second cut leaves the text alone.
  lemma {:induction false} AssembledWithNul(data: seq<char>, begin: nat, end: int)
    requires '\0' in data && begin <= |CString(data)| && end < |data|
    requires forall k | 0 <= k < begin :: data[k] == '\n'
    requires begin == |data| || data[begin] != '\n'
    requires forall k | 0 <= k < |data| && end < k :: data[k] == '\n'
    ensures end >= |CString(data)| && StripLeft(CString(data)) == CString(data)[begin..]
  {
    hide CString, StripLeft;
    var text := CString(data);
    assert |text| < |data| && data[|text|] == '\0';
    assert begin < |text| ==> text[begin] == data[begin];
    StripLeftAt(text, begin);
  }

  lemma {:induction false} StripLeftAt(text: string, begin: nat)
    requires begin <= |text| && forall k | 0 <= k < begin :: text[k] == '\n'
    requires begin == |text| || text[begin] != '\n'
    ensures StripLeft(text) == text[begin..]
  {
    hide StripLeft;
    StripLeftCuts(text);
    assert |StripLeft(text)| == |text| - begin;
  }

  lemma {:induction false} StripRightAt(text: string, end: nat)
    requires end <= |text| && forall k | end <= k < |text| :: text[k] == '\n'
    requires end == 0 || text[end - 1] != '\n'
    ensures StripRight(text) == text[..end]
  {
    hide StripRight;
    assert |StripRight(text)| == end;
  }

  // -------------------------------------------------------------- main results

  // Empty, or neither starting nor ending with a newline.
  predicate Clean(text: string) {
    text != [] ==> text[0] != '\n' && text[|text| - 1] != '\n'
  }

  predicate AllNewlines(text: string) {
    forall k | 0 <= k < |text| :: text[k] == '\n'
  }

  // `text` is `data` without the newlines around it.
  ghost predicate StrippedOf(text: string, data: string) {
    Clean(text) && exists before: string, after: string ::
      AllNewlines(before) && AllNewlines(after) && data == before + text + after
  }

  // Without NUL bytes the output is the one clean text with only newlines
  // around it.
  lemma {:induction false} OutputIsStripped(data: seq<char>, text: string)
    requires '\0' !in data
    ensures StrippedOf(text, data) <==> text == Output(data)
  {
    hide StripLeft, StripRight, Clean, AllNewlines;
    if StrippedOf(text, data) {
      var b: string, a: string :| AllNewlines(b) && AllNewlines(a) && data == b + text + a;
      OnlyOneStripping(data, b, text, a);
    }
    StrippingExists(data);
  }

  lemma {:induction false} StrippingExists(data: string)
    ensures StrippedOf(StripRight(StripLeft(data)), data)
  {
    hide StripLeft, StripRight, StrippedOf;
    StripLeftCuts(data);
    var left := StripLeft(data);
    var r := StripRight(left);
    var before, after := data[..|data| - |left|], left[|r|..];
    assert AllNewlines(before) && AllNewlines(after);
    assert Clean(r) by {
      assert r != [] ==> r[0] == left[0];
    }
    assert data == before + left;
    assert left == r + after;
    Stripping(data, before, r, after);
  }

  lemma {:induction false} Stripping(data: string, before: string, text: string, after: string)
    requires AllNewlines(before) && AllNewlines(after) && Clean(text) && data == before + (text + after)
    ensures StrippedOf(text, data)
  {
    hide AllNewlines, Clean;
    assert data == before + text + after;
  }

  lemma {:induction false} OnlyOneStripping(data: string, before: string, text: string, after: string)
    requires AllNewlines(before) && AllNewlines(after) && Clean(text) && data == before + text + after
    ensures StripRight(StripLeft(data)) == text
  {
    hide StripLeft, StripRight;
    forall k | 0 <= k < |before|
      ensures data[k] == '\n'
    {
      assert data[k] == before[k];
    }
    if text == [] {
      forall k | |before| <= k < |data|
        ensures data[k] == '\n'
      {
        assert data[k] == after[k - |before|];
      }
      StripLeftAt(data, |data|);
      StripRightAt([], 0);
    } else {
      assert data[|before|] == text[0];
      StripLeftAt(data, |before|);
      var left := data[|before|..];
      assert left == text + after;
      StripRightAt(left, |text|);
    }
  }

  // With NUL bytes the output can keep trailing newlines: it is clean exactly
  // when the text in front of the first NUL is all newlines or ends with none.
  lemma {:induction false} OutputCleanExactly(data: seq<char>)
    ensures Clean(Output(data)) <==>
      ('\0' in data ==> AllNewlines(CString(data)) || CString(data)[|CString(data)| - 1] != '\n')
  {
    hide StripLeft, StripRight, CString;
    StripLeftCuts(CString(data));
    StripLeftCuts(data);
    if '\0' in data {
      var text := CString(data);
      var r := StripLeft(text);
      if r == [] {
        assert AllNewlines(text);
      } else {
        assert r[|r| - 1] == text[|text| - 1];
        assert text[|text| - |r|] == r[0];
      }
    } else {
      var left := StripLeft(data);
      var r := StripRight(left);
      assert r != [] ==> r[0] == left[0];
    }
  }

  // What a NUL byte leaves: the text before the first one, without leading newlines.
  ghost predicate CutAtNul(text: string, data: string) {
    '\0' !in text && (text != [] ==> text[0] != '\n') && exists before: string, rest: string ::
      AllNewlines(before) && data == before + text + ['\0'] + rest
  }

  ghost predicate IsOutput(text: string, data: seq<char>) {
    if '\0' in data then CutAtNul(text, data) else StrippedOf(text, data)
  }

  // Of any bytes at all the output is told without the loops that find it.
  lemma {:induction false} OutputExactly(data: seq<char>, text: string)
    ensures IsOutput(text, data) <==> text == Output(data)
  {
    hide StripLeft, CString, StrippedOf, AllNewlines;
    if '\0' !in data {
      OutputIsStripped(data, text);
    } else {
      if CutAtNul(text, data) {
        var before: string, rest: string :| AllNewlines(before) && data == before + text + ['\0'] + rest;
        OnlyOneCut(data, before, text, rest);
      }
      CutExists(data);
    }
  }

  lemma {:induction false} OnlyOneCut(data: string, before: string, text: string, rest: string)
    requires AllNewlines(before) && '\0' !in text && (text != [] ==> text[0] != '\n')
    requires data == before + text + ['\0'] + rest
    ensures StripLeft(CString(data)) == text
  {
    hide StripLeft, CString;
    var n := |before| + |text|;
    assert data[..n] == before + text && data[n] == '\0';
    assert '\0' !in data[..n];
    FirstNul(data, n);
    assert text != [] ==> (before + text)[|before|] == text[0];
    StripLeftAt(before + text, |before|);
  }

  lemma {:induction false} FirstNul(data: string, n: nat)
    requires n < |data| && data[n] == '\0' && '\0' !in data[..n]
    ensures CString(data) == data[..n]
  {
    hide CString;
    var r := CString(data);
    assert forall k | 0 <= k < n :: data[..n][k] == data[k];
    assert forall k | 0 <= k < |r| :: r[k] == data[k] && r[k] in r;
    assert |r| == n;
  }

  lemma {:induction false} CutExists(data: string)
    requires '\0' in data
    ensures CutAtNul(StripLeft(CString(data)), data)
  {
    hide StripLeft, CString;
    var text := CString(data);
    var r := StripLeft(text);
    StripLeftCuts(text);
    assert |text| < |data|;
    var before, rest := text[..|text| - |r|], data[|text| + 1..];
    assert AllNewlines(before);
    assert data == text + ['\0'] + rest;
    assert text == before + r;
    assert '\0' !in r;
  }

  // One such input: the newline in front of the NUL byte is logged.
  lemma NulKeepsNewline()
    ensures Output(['a', '\n', '\0']) == "a\n" && !Clean(Output(['a', '\n', '\0']))
  {
    var data := ['a', '\n', '\0'];
    assert data[1..] == ['\n', '\0'] && data[1..][1..] == ['\0'];
    assert CString(data) == "a\n";
  }
}
