/**
  The numbered shader listing printed when a shader fails to compile or link
  (`printCodeWithLines` and `printShaderCodeWithHeader` in src/utils.cpp).

  Every source is a NUL-terminated C string. The listing starts with the label of
  line 0; every '\n' of a source closes the current line (its text, a newline, then
  the label of the next line), and one line counter runs across all sources. A
  source's text after its last '\n' is never printed. A final '\n' ends the output.
  The printed text is modelled as the value the printing returns.
*/
module CodeListing {

  import opened TextLines
  import opened LineLabels

  const NUL: char := '\0'

  /** The string a `const char*` denotes: the characters before the first NUL. */
  function CStr(s: seq<char>): seq<char>
  {
    if s == [] || s[0] == NUL then [] else [s[0]] + CStr(s[1..])
  }

  /** The C string is a prefix of the buffer without NUL, stopped by a NUL or the buffer's end. */
  lemma {:induction false} CStrPrefix(s: seq<char>)
    ensures var r := CStr(s);
      && |r| <= |s| && r == s[..|r|]
      && NUL !in r
      && (|r| < |s| ==> s[|r|] == NUL)
  {
    if s != [] && s[0] != NUL {
      CStrPrefix(s[1..]);
      assert s == [s[0]] + s[1..];
    }
  }

  /** The complete lines of all sources, in order. */
  function AllLines(srcs: seq<seq<char>>): seq<seq<char>>
  {
    if srcs == [] then [] else CompleteLines(CStr(srcs[0])) + AllLines(srcs[1..])
  }

  lemma {:induction false} AllLinesNoNewlines(srcs: seq<seq<char>>)
    ensures NoNewlines(AllLines(srcs))
  {
    if srcs != [] {
      AllLinesNoNewlines(srcs[1..]);
    }
  }

  /** Total number of newlines in all sources. */
  function TotalNewlines(srcs: seq<seq<char>>): nat
  {
    if srcs == [] then 0 else NewlineCount(CStr(srcs[0])) + TotalNewlines(srcs[1..])
  }

  /** Line `j` of `ls` behind the label of number `j`. */
  function Labelled(ls: seq<seq<char>>): (r: seq<seq<char>>)
    ensures |r| == |ls|
  {
    seq(|ls|, j requires 0 <= j < |ls| => Label(j) + ls[j])
  }

  /** Each line of `ls` behind the label of its index, followed by a newline. */
  function Numbered(ls: seq<seq<char>>): seq<char>
  {
    if ls == [] then []
    else Numbered(ls[..|ls| - 1]) + Label(|ls| - 1) + ls[|ls| - 1] + [NL]
  }

  /**
    The text `printCodeWithLines` prints for `srcs`: every complete source line
    behind its label, then the label of the line after the last newline, and a
    closing newline. Read as lines, it is exactly `ListingLines(srcs)`, each
    followed by a newline.
  */
  function Listing(srcs: seq<seq<char>>): (r: seq<char>)
    ensures r == JoinLines(ListingLines(srcs))
    ensures r[|r| - 1] == NL
  {
    var ls := AllLines(srcs);
    var ll := ListingLines(srcs);
    NumberedIsJoin(ls);
    assert ll[..|ls|] == Labelled(ls);
    Numbered(ls) + Label(|ls|) + [NL]
  }

  /** The lines the listing reads as: each complete source line behind its label, then a bare label. */
  function ListingLines(srcs: seq<seq<char>>): seq<seq<char>>
  {
    var ls := AllLines(srcs);
    Labelled(ls) + [Label(|ls|)]
  }

  // ---------------------------------------------------------------------------
  // The printing loop

  /** A C string ends at its first NUL. */
  lemma {:induction false} CStrAtNul(s: seq<char>, end: nat)
    requires end < |s| && s[end] == NUL && NUL !in s[..end]
    ensures CStr(s) == s[..end]
    decreases end
  {
    if end > 0 {
      assert s[0] == s[..end][0];
      assert s[1..][..end - 1] == s[1..end];
      CStrAtNul(s[1..], end - 1);
      assert s[..end] == [s[0]] + s[1..end];
    }
  }

  lemma AllLinesSnoc(srcs: seq<seq<char>>, i: nat)
    requires i < |srcs|
    ensures AllLines(srcs[..i + 1]) == AllLines(srcs[..i]) + CompleteLines(CStr(srcs[i]))
  {
    assert srcs[..i + 1] == srcs[..i] + [srcs[i]];
    AllLinesAppend(srcs[..i], [srcs[i]]);
    assert [srcs[i]][1..] == [];
  }

  /** Closing the current line with text `seg` and printing the next label. */
  lemma EmitLine(out: seq<char>, done: seq<seq<char>>, seg: seq<char>)
    requires out == Numbered(done) + Label(|done|)
    ensures out + seg + [NL] + Label(|done| + 1) == Numbered(done + [seg]) + Label(|done + [seg]|)
  {
    assert (done + [seg])[..|done|] == done;
  }

  /**
    The scan of source `s` has reached `end` with no NUL before it; the current
    line starts at `start` and holds no newline yet; the text before `start` is
    the complete lines `cur`.
  */
  predicate Scanning(s: seq<char>, start: nat, end: nat, cur: seq<seq<char>>)
  {
    && start <= end < |s|
    && NUL !in s[..end]
    && NL !in s[start..end]
    && s[..start] == JoinLines(cur) && NoNewlines(cur)
  }

  lemma ScanStart(s: seq<char>)
    requires NUL in s
    ensures Scanning(s, 0, 0, [])
  {
    assert s[..0] == [] == s[0..0];
  }

  /** Stepping over a character that is neither the NUL nor a newline. */
  lemma ScanOther(s: seq<char>, start: nat, end: nat, cur: seq<seq<char>>)
    requires NUL in s && Scanning(s, start, end, cur)
    requires s[end] != NUL && s[end] != NL
    ensures Scanning(s, start, end + 1, cur)
  {
    NulAhead(s, end);
    assert s[start..end + 1] == s[start..end] + [s[end]];
  }

  /** Stepping over a newline: the segment before it becomes the next complete line. */
  lemma ScanNewline(s: seq<char>, start: nat, end: nat, cur: seq<seq<char>>)
    requires NUL in s && Scanning(s, start, end, cur)
    requires s[end] == NL
    ensures Scanning(s, end + 1, end + 1, cur + [s[start..end]])
  {
    NulAhead(s, end);
    assert s[end + 1..end + 1] == [];
    var cur' := cur + [s[start..end]];
    assert cur'[..|cur|] == cur;
    assert s[..end + 1] == s[..start] + s[start..end] + [NL];
  }

  /** Before the first NUL, the next position is still inside `s`. */
  lemma NulAhead(s: seq<char>, end: nat)
    requires NUL in s && end < |s| && NUL !in s[..end] && s[end] != NUL
    ensures end + 1 < |s| && NUL !in s[..end + 1]
  {
    assert s[..end + 1] == s[..end] + [s[end]];
  }

  /** Printing the segment, a newline and the next label numbers one more line. */
  lemma NumberStep(out: seq<char>, done: seq<seq<char>>, cur: seq<seq<char>>, seg: seq<char>, line: int)
    requires out == Numbered(done + cur) + Label(|done + cur|) && line == |done + cur| + 1
    ensures line == |done + (cur + [seg])|
    ensures out + seg + [NL] + Label(line) == Numbered(done + (cur + [seg])) + Label(|done + (cur + [seg])|)
  {
    var d := done + cur;
    EmitLine(out, d, seg);
    assert d + [seg] == done + (cur + [seg]);
    assert |d + [seg]| == line;
  }

  /** The NUL of a source: its pending segment is dropped, the lines seen are all its lines. */
  lemma ScanNul(s: seq<char>, start: nat, end: nat, cur: seq<seq<char>>)
    requires Scanning(s, start, end, cur) && s[end] == NUL
    ensures CompleteLines(CStr(s)) == cur
  {
    CStrAtNul(s, end);
    assert s[..end] == s[..start] + s[start..end];
    CompleteLinesNoNewlineSuffix(s[..start], s[start..end]);
    CompleteLinesOfJoin(cur);
  }

  /**
    The inner loop of `printCodeWithLines` over one source `s`: `start`/`end` walk
    to the NUL; at every '\n' the segment, a newline and the label of the next
    line are printed. `done` are the lines numbered before `s`.
  */
  method PrintSource(s: seq<char>, out0: seq<char>, line0: int, ghost done: seq<seq<char>>)
    returns (out: seq<char>, line: int)
    requires NUL in s
    requires line0 == |done| + 1 && out0 == Numbered(done) + Label(|done|)
    ensures line == |done + CompleteLines(CStr(s))| + 1
    ensures out == Numbered(done + CompleteLines(CStr(s))) + Label(line - 1)
  {
    out, line := out0, line0;
    ghost var cur: seq<seq<char>> := [];
    var start, end := 0, 0;
    ScanStart(s);
    assert done + cur == done;
    while s[end] != NUL
      invariant Scanning(s, start, end, cur)
      invariant line == |done + cur| + 1
      invariant out == Numbered(done + cur) + Label(|done + cur|)
      decreases |s| - end
    {
      if s[end] == NL {
        var seg := s[start..end];
        ScanNewline(s, start, end, cur);
        NumberStep(out, done, cur, seg, line);
        cur := cur + [seg];
        out := out + seg + [NL] + Label(line);
        start, end := end + 1, end + 1;
        line := line + 1;
      } else {
        ScanOther(s, start, end, cur);
        end := end + 1;
      }
    }
    ScanNul(s, start, end, cur);
  }

  /**
    `printCodeWithLines`: prints label 0, lists every source in turn with one
    line counter running across them all, and ends with a newline.
  */
  method PrintCodeWithLines(srcs: seq<seq<char>>) returns (out: seq<char>)
    requires forall i :: 0 <= i < |srcs| ==> NUL in srcs[i]
    ensures out == Listing(srcs)
  {
    out := Label(0);
    var line := 1;
    for i := 0 to |srcs|
      invariant line == |AllLines(srcs[..i])| + 1
      invariant out == Numbered(AllLines(srcs[..i])) + Label(line - 1)
    {
      AllLinesSnoc(srcs, i);
      out, line := PrintSource(srcs[i], out, line, AllLines(srcs[..i]));
    }
    assert srcs[..|srcs|] == srcs;
    out := out + "\n";
  }

  // ---------------------------------------------------------------------------
  // The shader header

  const VersionLine: seq<char> := "#version 330"
  const PiLine: seq<char> := "#define PI 3.1415926535897932"

  /** The lines of the GLSL header: an empty one, the version and the definition of PI. */
  const HeaderLines: seq<seq<char>> := ["", VersionLine, PiLine]

  /** The GLSL header placed in front of every shader source: its lines, each ended by '\n'. */
  const Header: seq<char> := JoinLines(HeaderLines)

  lemma JoinThree(a: seq<char>, b: seq<char>, c: seq<char>)
    ensures JoinLines([a, b, c]) == a + [NL] + b + [NL] + c + [NL]
  {
    assert [a, b, c][..2] == [a, b];
    assert [a, b][..1] == [a];
    assert [a][..0] == [];
    assert JoinLines([a]) == a + [NL];
    assert JoinLines([a, b]) == JoinLines([a]) + b + [NL];
    assert JoinLines([a, b, c]) == JoinLines([a, b]) + c + [NL];
  }

  /** The header text is "\n#version 330\n#define PI 3.1415926535897932\n". */
  lemma HeaderText()
    ensures Header == [NL] + VersionLine + [NL] + PiLine + [NL]
  {
    JoinThree("", VersionLine, PiLine);
  }

  lemma HeaderLinesPlain()
    ensures NUL !in VersionLine && NUL !in PiLine && NL !in VersionLine && NL !in PiLine
  {
    PlainLine(VersionLine);
    PlainLine(PiLine);
  }

  /** A line of printable characters holds neither a NUL nor a newline. */
  lemma PlainLine(l: seq<char>)
    requires forall i :: 0 <= i < |l| ==> ' ' <= l[i] <= '~'
    ensures NUL !in l && NL !in l
  {
  }

  /** The header holds no NUL, so as a C string it runs to the appended terminator. */
  lemma HeaderNoNul()
    ensures NUL !in Header
  {
    HeaderText();
    HeaderLinesPlain();
    var a, b := [NL] + VersionLine + [NL], PiLine + [NL];
    NotInConcat(NUL, [NL], VersionLine + [NL]);
    NotInConcat(NUL, a, b);
    assert Header == a + b;
  }

  /** As a source, the NUL-terminated header contributes exactly its three lines. */
  lemma HeaderIsLines()
    ensures CompleteLines(CStr(Header + [NUL])) == HeaderLines
  {
    HeaderNoNul();
    CStrAtNul(Header + [NUL], |Header|);
    assert (Header + [NUL])[..|Header|] == Header;
    HeaderLinesPlain();
    assert NoNewlines(HeaderLines);
    CompleteLinesOfJoin(HeaderLines);
  }

  lemma HeaderLineCount()
    ensures |CompleteLines(CStr(Header + [NUL]))| == 3
  {
    HeaderIsLines();
  }

  /** `printShaderCodeWithHeader`: lists the header and then `src` as two sources. */
  method PrintShaderCodeWithHeader(src: seq<char>) returns (out: seq<char>)
    requires NUL in src
    ensures out == Listing([Header + [NUL], src])
  {
    out := PrintCodeWithLines([Header + [NUL], src]);
  }

  // ---------------------------------------------------------------------------
  // What the listing looks like

  lemma {:induction false} TotalNewlinesCount(srcs: seq<seq<char>>)
    ensures |AllLines(srcs)| == TotalNewlines(srcs)
  {
    if srcs != [] {
      TotalNewlinesCount(srcs[1..]);
      CompleteLinesCount(CStr(srcs[0]));
    }
  }

  lemma ListingLinesNoNewlines(srcs: seq<seq<char>>)
    ensures NoNewlines(ListingLines(srcs))
  {
    var ls := AllLines(srcs);
    AllLinesNoNewlines(srcs);
    forall j | 0 <= j < |ListingLines(srcs)|
      ensures NL !in ListingLines(srcs)[j]
    {
      ListingLineNoNewline(ls, j);
    }
  }

  lemma ListingLineNoNewline(ls: seq<seq<char>>, j: nat)
    requires NoNewlines(ls) && j <= |ls|
    ensures NL !in (Labelled(ls) + [Label(|ls|)])[j]
  {
    LabelShape(j);
    if j < |ls| {
      assert (Labelled(ls) + [Label(|ls|)])[j] == Label(j) + ls[j];
      NotInConcat(NL, Label(j), ls[j]);
    } else {
      assert (Labelled(ls) + [Label(|ls|)])[j] == Label(j);
    }
  }

  lemma NotInConcat(c: char, x: seq<char>, y: seq<char>)
    requires c !in x && c !in y
    ensures c !in x + y
  {
  }

  /** Printing the labelled lines one after the other is joining them with newlines. */
  lemma {:induction false} NumberedIsJoin(ls: seq<seq<char>>)
    ensures Numbered(ls) == JoinLines(Labelled(ls))
    decreases |ls|
  {
    if ls != [] {
      var n := |ls| - 1;
      NumberedIsJoin(ls[..n]);
      var ll := Labelled(ls);
      LabelledPrefix(ls, n);
      assert JoinLines(ll) == JoinLines(ll[..n]) + ll[n] + [NL];
      assert ll[n] == Label(n) + ls[n];
      SnocAssoc(Numbered(ls[..n]), Label(n), ls[n]);
    }
  }

  lemma SnocAssoc(a: seq<char>, b: seq<char>, c: seq<char>)
    ensures a + b + c + [NL] == a + (b + c) + [NL]
  {
  }

  /** Labelling a prefix labels the same lines with the same numbers. */
  lemma LabelledPrefix(ls: seq<seq<char>>, n: nat)
    requires n <= |ls|
    ensures Labelled(ls)[..n] == Labelled(ls[..n])
  {
    var a, b := Labelled(ls)[..n], Labelled(ls[..n]);
    forall i | 0 <= i < n
      ensures a[i] == b[i]
    {
      assert a[i] == Label(i) + ls[i];
    }
  }

  /** `line` begins with `prefix`. */
  predicate StartsWith(line: seq<char>, prefix: seq<char>)
  {
    |prefix| <= |line| && line[..|prefix|] == prefix
  }

  /**
    Reading the printed text back line by line gives exactly the listing lines,
    with nothing after the final newline.
  */
  lemma ListingReadsBack(srcs: seq<seq<char>>)
    ensures CompleteLines(Listing(srcs)) == ListingLines(srcs)
    ensures Rest(Listing(srcs)) == []
  {
    var ll := ListingLines(srcs);
    ListingLinesNoNewlines(srcs);
    CompleteLinesOfJoin(ll);
    RestOfJoin(ll);
  }

  /** The listing has one line per newline of the sources, plus one. */
  lemma ListingLineCount(srcs: seq<seq<char>>)
    ensures |ListingLines(srcs)| == TotalNewlines(srcs) + 1
  {
    TotalNewlinesCount(srcs);
  }

  /** Line `j` of the listing starts with the label of `j`. */
  lemma ListingLabels(srcs: seq<seq<char>>)
    ensures forall j :: 0 <= j < |ListingLines(srcs)| ==> StartsWith(ListingLines(srcs)[j], Label(j))
  {
    var ls := AllLines(srcs);
    var ll := ListingLines(srcs);
    forall j | 0 <= j < |ll|
      ensures StartsWith(ll[j], Label(j))
    {
      if j < |ls| {
        assert ll[j] == Label(j) + ls[j];
      } else {
        assert ll[j] == Label(j);
      }
    }
  }

  lemma StartsWithConcat(a: seq<char>, b: seq<char>, p: seq<char>)
    requires StartsWith(a, p)
    ensures StartsWith(a + b, p)
  {
    assert (a + b)[..|p|] == a[..|p|];
  }

  /** The first listing line starts with the label of line 0. */
  lemma FirstListingLine(srcs: seq<seq<char>>)
    ensures |ListingLines(srcs)| > 0 && StartsWith(ListingLines(srcs)[0], Label(0))
  {
    var ls := AllLines(srcs);
    if ls == [] {
      assert ListingLines(srcs)[0] == Label(0);
    } else {
      assert ListingLines(srcs)[0] == Label(0) + ls[0];
    }
  }

  /** Joined lines start with what the first line starts with. */
  lemma JoinStartsWith(ll: seq<seq<char>>, p: seq<char>)
    requires |ll| > 0 && StartsWith(ll[0], p)
    ensures StartsWith(JoinLines(ll), p)
  {
    JoinLinesCons(ll[0], ll[1..]);
    assert [ll[0]] + ll[1..] == ll;
    StartsWithConcat(ll[0], [NL] + JoinLines(ll[1..]), p);
  }

  /** The output starts with the label of line 0 and ends with a newline. */
  lemma ListingBounds(srcs: seq<seq<char>>)
    ensures StartsWith(Listing(srcs), Label(0))
    ensures |Listing(srcs)| > 0 && Listing(srcs)[|Listing(srcs)| - 1] == NL
  {
    FirstListingLine(srcs);
    JoinStartsWith(ListingLines(srcs), Label(0));
  }

  /** The output of any list of sources begins with "   0| ". */
  lemma ListingStart(srcs: seq<seq<char>>)
    ensures |Listing(srcs)| >= 6 && Listing(srcs)[..6] == "   0| "
  {
    ListingBounds(srcs);
    LabelZero();
  }

  /** Concatenating the source lists concatenates their complete lines. */
  lemma {:induction false} AllLinesAppend(a: seq<seq<char>>, b: seq<seq<char>>)
    ensures AllLines(a + b) == AllLines(a) + AllLines(b)
    decreases |a|
  {
    if a == [] {
      assert a + b == b;
    } else {
      assert (a + b)[1..] == a[1..] + b;
      assert (a + b)[0] == a[0];
      AllLinesAppend(a[1..], b);
    }
  }

  /**
    The counter is not reset between sources: line `j` of the sources in `b` is
    labelled with the number of lines of the sources before it, plus `j`.
  */
  lemma NumberingContinues(a: seq<seq<char>>, b: seq<seq<char>>, j: nat)
    requires j < |AllLines(b)|
    ensures |ListingLines(a + b)| > |AllLines(a)| + j
    ensures ListingLines(a + b)[|AllLines(a)| + j] == Label(|AllLines(a)| + j) + AllLines(b)[j]
  {
    var k := |AllLines(a)| + j;
    AllLinesAppend(a, b);
    IndexAfter(AllLines(a), AllLines(b), j);
    assert AllLines(a + b)[k] == AllLines(b)[j];
    ListingLine(a + b, k);
  }

  lemma IndexAfter(a: seq<seq<char>>, b: seq<seq<char>>, j: nat)
    requires j < |b|
    ensures |a| + j < |a + b| && (a + b)[|a| + j] == b[j]
  {
  }

  /** Line `k` of the listing, for a complete source line `k`, is that line behind its label. */
  lemma ListingLine(srcs: seq<seq<char>>, k: nat)
    requires k < |AllLines(srcs)|
    ensures k < |ListingLines(srcs)| && ListingLines(srcs)[k] == Label(k) + AllLines(srcs)[k]
  {
  }

  /** Two sources: the lines of the first, then those of the second. */
  lemma TwoSources(x: seq<char>, y: seq<char>)
    ensures AllLines([x, y]) == CompleteLines(CStr(x)) + CompleteLines(CStr(y))
  {
    AllLinesMiddle([], x, [y]);
    SingleSource(y);
    assert [] + [x] + [y] == [x, y];
  }

  /** The lines of a list of sources with one source singled out. */
  lemma AllLinesMiddle(pre: seq<seq<char>>, x: seq<char>, post: seq<seq<char>>)
    ensures AllLines(pre + [x] + post) == AllLines(pre) + CompleteLines(CStr(x)) + AllLines(post)
  {
    AllLinesAppend(pre + [x], post);
    AllLinesAppend(pre, [x]);
    SingleSource(x);
  }

  /** A single source contributes its complete lines. */
  lemma SingleSource(x: seq<char>)
    ensures AllLines([x]) == CompleteLines(CStr(x))
  {
    assert [x][1..] == [];
  }

  /** Text after the last newline of a source never reaches the output. */
  lemma TrailingTextDropped(pre: seq<seq<char>>, t: seq<char>, v: seq<char>, post: seq<seq<char>>)
    requires NUL !in t && NUL !in v && NL !in v
    ensures Listing(pre + [t + v + [NUL]] + post) == Listing(pre + [t + [NUL]] + post)
  {
    var long, short := t + v + [NUL], t + [NUL];
    CStrAtNul(long, |t + v|);
    assert long[..|t + v|] == t + v;
    CStrAtNul(short, |t|);
    assert short[..|t|] == t;
    CompleteLinesNoNewlineSuffix(t, v);
    AllLinesMiddle(pre, long, post);
    AllLinesMiddle(pre, short, post);
  }

  /** The shader listing lists the three header lines and then the source's lines. */
  lemma ShaderLines(src: seq<char>)
    ensures AllLines([Header + [NUL], src]) == HeaderLines + CompleteLines(CStr(src))
  {
    HeaderIsLines();
    TwoSources(Header + [NUL], src);
  }

  /** The shader listing has four lines more than the source has newlines, the last a bare label. */
  lemma ShaderListingLength(src: seq<char>)
    ensures var ll := ListingLines([Header + [NUL], src]);
      && |ll| == 4 + NewlineCount(CStr(src))
      && ll[|ll| - 1] == Label(|ll| - 1)
  {
    ShaderLines(src);
    CompleteLinesCount(CStr(src));
  }

  /** The three header lines come first, labelled 0 to 2. */
  lemma ShaderHeaderLabels(src: seq<char>)
    ensures var ll := ListingLines([Header + [NUL], src]);
      && |ll| > 3
      && ll[0] == Label(0)
      && ll[1] == Label(1) + VersionLine
      && ll[2] == Label(2) + PiLine
  {
    ShaderLines(src);
    var ll := ListingLines([Header + [NUL], src]);
    assert ll[0] == Label(0) + "";
  }

  /** Line `j` of the second of two sources is numbered after all lines of the first. */
  lemma SecondSourceLabels(x: seq<char>, y: seq<char>, j: nat)
    requires j < |CompleteLines(CStr(y))|
    ensures var ll := ListingLines([x, y]);
      var k := |CompleteLines(CStr(x))|;
      k + j < |ll| && ll[k + j] == Label(k + j) + CompleteLines(CStr(y))[j]
  {
    TwoSources(x, y);
    IndexAfter(CompleteLines(CStr(x)), CompleteLines(CStr(y)), j);
    ListingLine([x, y], |CompleteLines(CStr(x))| + j);
  }

  /** Line `j` of the shader source is labelled `3 + j`: the header shifts the numbering by three. */
  lemma ShaderSourceLabels(src: seq<char>, j: nat)
    requires j < |CompleteLines(CStr(src))|
    ensures var ll := ListingLines([Header + [NUL], src]);
      3 + j < |ll| && ll[3 + j] == Label(3 + j) + CompleteLines(CStr(src))[j]
  {
    HeaderLineCount();
    SecondSourceLabels(Header + [NUL], src, j);
  }

  /** The first example source "a\n" holds the one line "a". */
  lemma ExampleFirstLines()
    ensures CompleteLines(CStr("a\n\0")) == ["a"]
  {
    CStrAtNul("a\n\0", 2);
    assert "a\n\0"[..2] == JoinLines(["a"]);
    CompleteLinesOfJoin(["a"]);
  }

  /** The second example source "b\nc" holds the one line "b"; "c" is not a complete line. */
  lemma ExampleSecondLines()
    ensures CompleteLines(CStr("b\nc\0")) == ["b"]
  {
    CStrAtNul("b\nc\0", 3);
    assert "b\nc\0"[..3] == JoinLines(["b"]) + "c";
    CompleteLinesOfJoin(["b"]);
    CompleteLinesNoNewlineSuffix(JoinLines(["b"]), "c");
  }

  lemma ExampleLabels()
    ensures Label(0) == "   0| " && Label(1) == "   1| " && Label(2) == "   2| "
  {
    LabelZero();
    assert Decimal(1) == "1";
    assert Decimal(2) == "2";
  }

  lemma NumberedTwo(p: seq<char>, q: seq<char>)
    ensures Numbered([p, q]) == Label(0) + p + [NL] + Label(1) + q + [NL]
  {
    assert [p, q][..1] == [p] && [p][..0] == [];
    assert Numbered([p]) == Label(0) + p + [NL];
    assert Numbered([p, q]) == Numbered([p]) + Label(1) + q + [NL];
  }

  /** Two one-line sources: numbering continues and the trailing "c" is dropped. */
  lemma TwoSourcesExample()
    ensures Listing(["a\n\0", "b\nc\0"]) == "   0| a\n   1| b\n   2| \n"
  {
    var srcs := ["a\n\0", "b\nc\0"];
    ExampleFirstLines();
    ExampleSecondLines();
    TwoSources(srcs[0], srcs[1]);
    ExampleListing(srcs);
  }

  lemma ExampleListing(srcs: seq<seq<char>>)
    requires AllLines(srcs) == ["a", "b"]
    ensures Listing(srcs) == "   0| a\n   1| b\n   2| \n"
  {
    NumberedTwo("a", "b");
    ExampleLabels();
  }
}
