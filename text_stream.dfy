/** Reading delimited fields from a string stream, as `std::getline(stream,
    token, delim)` does on a `std::stringstream`.

    The stream is the text not yet read and whether it is still good.  A
    read from a stream that is no longer good fails and leaves the token as
    it was.  Otherwise the token becomes the text up to the next delimiter,
    which is consumed; when no delimiter is left the token becomes the rest
    of the text and the stream reaches its end, so it is no longer good. */
module TextStream {

  datatype Option<T> = None | Some(value: T)

  datatype Stream = Stream(rest: string, good: bool)

  function Open(text: string): Stream {
    Stream(text, true)
  }

  /** Position of the first c in s, or |s| when there is none. */
  function IndexOf(s: string, c: char): (i: nat)
    ensures i <= |s|
    ensures i < |s| ==> s[i] == c
    ensures forall k :: 0 <= k < i ==> s[k] != c
  {
    if s == [] then 0
    else if s[0] == c then 0
    else
      var j := IndexOf(s[1..], c);
      assert s[..j + 1] == [s[0]] + s[1..][..j];
      j + 1
  }

  /** `std::getline(stream, token, delim)`: the stream after the read and
      the token.  A read from a good stream consumes the token and, when the
      stream stays good, one delimiter; a failed read consumes nothing.
      `GetLineToken` states what the token holds. */
  function GetLine(s: Stream, token: string, delim: char): (r: (Stream, string))
    ensures s.good ==> |s.rest| == |r.1| + (if r.0.good then 1 else 0) + |r.0.rest|
    ensures !s.good ==> r.0 == s
  {
    if !s.good then (s, token)
    else
      var i := IndexOf(s.rest, delim);
      if i < |s.rest| then (Stream(s.rest[i + 1..], true), s.rest[..i])
      else (Stream([], false), s.rest)
  }

  /** The token of a read from a good stream is the longest prefix of the
      text without a delimiter: a delimiter follows it exactly when the
      stream stays good. */
  lemma GetLineToken(s: Stream, token: string, delim: char)
    requires s.good
    ensures var r := GetLine(s, token, delim);
            r.1 == s.rest[..|r.1|] && delim !in r.1
            && (r.0.good <==> |r.1| < |s.rest|) && (r.0.good ==> s.rest[|r.1|] == delim)
  {
  }

  /** A read into a token without a delimiter leaves a token without one. */
  lemma GetLineNoDelim(s: Stream, token: string, delim: char)
    requires delim !in token
    ensures delim !in GetLine(s, token, delim).1
  {
    if s.good {
      GetLineToken(s, token, delim);
    }
  }

  /** The fields joined with the delimiter between them. */
  function Join(fields: seq<string>, delim: char): string
    requires |fields| > 0
  {
    if |fields| == 1 then fields[0]
    else fields[0] + [delim] + Join(fields[1..], delim)
  }

  predicate NoDelim(fields: seq<string>, delim: char) {
    forall k :: 0 <= k < |fields| ==> delim !in fields[k]
  }

  /** The first delimiter of a field followed by a delimiter is right after the field. */
  lemma {:induction false} IndexOfAfterField(f: string, delim: char, rest: string)
    requires delim !in f
    ensures IndexOf(f + [delim] + rest, delim) == |f|
  {
    if f != [] {
      assert (f + [delim] + rest)[1..] == f[1..] + [delim] + rest;
      IndexOfAfterField(f[1..], delim, rest);
    }
  }

  /** Reading from joined fields yields the first field; the stream stays
      good, on the remaining fields, exactly when there are more fields. */
  lemma GetLineJoin(fields: seq<string>, delim: char, token: string)
    requires |fields| > 0 && NoDelim(fields, delim)
    ensures GetLine(Open(Join(fields, delim)), token, delim).1 == fields[0]
    ensures |fields| == 1 ==> GetLine(Open(Join(fields, delim)), token, delim).0 == Stream([], false)
    ensures |fields| > 1 ==>
      GetLine(Open(Join(fields, delim)), token, delim).0 == Open(Join(fields[1..], delim))
  {
    if |fields| > 1 {
      IndexOfAfterField(fields[0], delim, Join(fields[1..], delim));
      var text := Join(fields, delim);
      assert text[|fields[0]| + 1..] == Join(fields[1..], delim);
      assert text[..|fields[0]|] == fields[0];
    } else {
      assert IndexOf(fields[0], delim) == |fields[0]|;
    }
  }

  /** Once a stream is no longer good, every further read fails and leaves
      the token as it was. */
  lemma GetLineAtEnd(s: Stream, token: string, delim: char)
    requires !s.good
    ensures GetLine(s, token, delim) == (s, token)
  {
  }

  /** n reads in a row into one token: each read starts from the token
      the previous read left. */
  function Reads(s: Stream, token: string, delim: char, n: nat): (r: seq<string>)
    ensures |r| == n
    decreases n
  {
    if n == 0 then []
    else
      var (s', t) := GetLine(s, token, delim);
      [t] + Reads(s', t, delim, n - 1)
  }

  /** Reads into a token without a delimiter yield tokens without one. */
  lemma {:induction false} ReadsNoDelim(s: Stream, token: string, delim: char, n: nat)
    requires delim !in token
    ensures forall k :: 0 <= k < n ==> delim !in Reads(s, token, delim, n)[k]
    decreases n
  {
    if n > 0 {
      var (s', t) := GetLine(s, token, delim);
      GetLineNoDelim(s, token, delim);
      ReadsNoDelim(s', t, delim, n - 1);
      assert Reads(s, token, delim, n) == [t] + Reads(s', t, delim, n - 1);
    }
  }

  /** n reads from n or more joined fields yield the first n fields. */
  lemma {:induction false} ReadsJoin(fields: seq<string>, delim: char, token: string, n: nat)
    requires 0 < |fields| && n <= |fields| && NoDelim(fields, delim)
    ensures Reads(Open(Join(fields, delim)), token, delim, n) == fields[..n]
  {
    if n > 0 {
      var st := Open(Join(fields, delim));
      GetLineJoin(fields, delim, token);
      var next := GetLine(st, token, delim);
      assert Reads(st, token, delim, n) == [fields[0]] + Reads(next.0, fields[0], delim, n - 1);
      if n > 1 {
        ReadsJoin(fields[1..], delim, fields[0], n - 1);
        assert fields[..n] == [fields[0]] + fields[1..][..n - 1];
      } else {
        assert fields[..n] == [fields[0]];
      }
    }
  }

  /** Reads past the last of the joined fields fail and repeat it. */
  lemma {:induction false} ReadsPastEnd(fields: seq<string>, delim: char, token: string, n: nat)
    requires 0 < |fields| < n && NoDelim(fields, delim)
    ensures Reads(Open(Join(fields, delim)), token, delim, n)
            == fields + Repeat(fields[|fields| - 1], n - |fields|)
  {
    var st := Open(Join(fields, delim));
    GetLineJoin(fields, delim, token);
    var next := GetLine(st, token, delim);
    var r := Repeat(fields[|fields| - 1], n - |fields|);
    assert Reads(st, token, delim, n) == [fields[0]] + Reads(next.0, fields[0], delim, n - 1);
    if |fields| > 1 {
      ReadsPastEnd(fields[1..], delim, fields[0], n - 1);
      assert fields + r == [fields[0]] + (fields[1..] + r);
    } else {
      ReadsAtEnd(Stream([], false), fields[0], delim, n - 1);
      assert fields == [fields[0]];
    }
  }

  /** Reads from a stream that is no longer good all leave the token as it was. */
  lemma {:induction false} ReadsAtEnd(s: Stream, token: string, delim: char, n: nat)
    requires !s.good
    ensures Reads(s, token, delim, n) == Repeat(token, n)
  {
    if n > 0 {
      ReadsAtEnd(s, token, delim, n - 1);
    }
  }

  /** n copies of x. */
  function Repeat(x: string, n: nat): (r: seq<string>)
    ensures |r| == n
  {
    if n == 0 then [] else [x] + Repeat(x, n - 1)
  }

  /** The lines that `while (std::getline(file, line))` reads from a file
      holding `text`: each read takes the text up to the next line break and
      consumes the break; a read that finds the end of the text without
      taking a character fails and ends the loop, so a final line break
      does not start another line. */
  function Lines(text: string): (r: seq<string>)
    ensures r == [] <==> text == []
    ensures forall k :: 0 <= k < |r| ==> '\n' !in r[k]
    decreases |text|
  {
    if text == [] then []
    else
      var i := IndexOf(text, '\n');
      if i < |text| then [text[..i]] + Lines(text[i + 1..]) else [text]
  }

  /** Lines without line breaks, joined by line breaks, are read back as
      those lines, provided the last one is not empty. */
  lemma {:induction false} LinesJoin(lines: seq<string>)
    requires |lines| > 0 && NoDelim(lines, '\n') && lines[|lines| - 1] != []
    ensures Lines(Join(lines, '\n')) == lines
  {
    if |lines| == 1 {
      assert IndexOf(lines[0], '\n') == |lines[0]|;
    } else {
      var text := Join(lines, '\n');
      IndexOfAfterField(lines[0], '\n', Join(lines[1..], '\n'));
      assert text[|lines[0]| + 1..] == Join(lines[1..], '\n');
      assert text[..|lines[0]|] == lines[0];
      LinesJoin(lines[1..]);
      assert lines == [lines[0]] + lines[1..];
    }
  }
}
