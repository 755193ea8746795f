/**
 * The seeding context of an analysis run (App.tsx, line 26): every paper
 * rendered as a title/content/separator block, the blocks joined by "\n".
 */
module ContextCompiler {
  import opened Types
  import opened Strings

  const TitleLabel := "Title: "
  const ContentLabel := "\nContent:\n"
  const Separator := "\n---"

  /** The block of one paper: `Title: ${title}\nContent:\n${content}\n---`. */
  function Block(p: PaperData): string {
    TitleLabel + p.title + ContentLabel + p.content + Separator
  }

  /** `papers.map(Block)`. */
  function Blocks(papers: seq<PaperData>): (r: seq<string>)
    ensures |r| == |papers|
    ensures forall i :: 0 <= i < |papers| ==> r[i] == Block(papers[i])
  {
    seq(|papers|, i requires 0 <= i < |papers| => Block(papers[i]))
  }

  /** `parts.join(sep)`: the parts in order with `sep` between neighbours. */
  function Join(parts: seq<string>, sep: string): string
    decreases |parts|
  {
    if |parts| == 0 then ""
    else if |parts| == 1 then parts[0]
    else parts[0] + sep + Join(parts[1..], sep)
  }

  /** The context string handed to the session start. */
  function CompileContext(papers: seq<PaperData>): string {
    Join(Blocks(papers), "\n")
  }

  /** Where part `i` begins in `Join(parts, sep)`. */
  function PartStart(parts: seq<string>, sep: string, i: nat): nat
    requires i <= |parts|
    decreases i
  {
    if i == 0 then 0 else |parts[0]| + |sep| + PartStart(parts[1..], sep, i - 1)
  }

  /** Joining two non-empty lists is joining their joins. */
  lemma {:induction false} JoinConcat(a: seq<string>, b: seq<string>, sep: string)
    requires |a| > 0 && |b| > 0
    ensures Join(a + b, sep) == Join(a, sep) + sep + Join(b, sep)
    decreases |a|
  {
    if |a| == 1 {
      assert (a + b)[1..] == b;
    } else {
      assert (a + b)[1..] == a[1..] + b;
      JoinConcat(a[1..], b, sep);
    }
  }

  /** The next part begins one part and one separator further on. */
  lemma {:induction false} PartStartNext(parts: seq<string>, sep: string, i: nat)
    requires i < |parts|
    ensures PartStart(parts, sep, i + 1) == PartStart(parts, sep, i) + |parts[i]| + |sep|
    decreases i
  {
    if i > 0 {
      PartStartNext(parts[1..], sep, i - 1);
    }
  }

  /** A join of two or more parts is the first part, the separator, and the join of the rest. */
  lemma JoinFirst(parts: seq<string>, sep: string)
    requires |parts| > 0
    ensures |parts[0]| <= |Join(parts, sep)| && Join(parts, sep)[..|parts[0]|] == parts[0]
    ensures |parts| > 1 ==> Join(parts, sep) == (parts[0] + sep) + Join(parts[1..], sep)
  {
    if |parts| > 1 {
      assert Join(parts, sep) == parts[0] + (sep + Join(parts[1..], sep));
    }
  }

  /** Part `i` stands verbatim at `PartStart(parts, sep, i)`. */
  lemma {:induction false} JoinPartAt(parts: seq<string>, sep: string, i: nat)
    requires i < |parts|
    ensures PartStart(parts, sep, i) + |parts[i]| <= |Join(parts, sep)|
    ensures Join(parts, sep)[PartStart(parts, sep, i)..PartStart(parts, sep, i) + |parts[i]|] == parts[i]
    decreases i
  {
    JoinFirst(parts, sep);
    if i > 0 {
      JoinPartAt(parts[1..], sep, i - 1);
      JoinPartStep(parts, sep, i);
    }
  }

  /** The step of `JoinPartAt`: part `i` of `parts` is part `i - 1` of the rest, shifted by the first part and `sep`. */
  lemma JoinPartStep(parts: seq<string>, sep: string, i: nat)
    requires 0 < i < |parts|
    requires var r, s := Join(parts[1..], sep), PartStart(parts[1..], sep, i - 1);
      s + |parts[i]| <= |r| && r[s..s + |parts[i]|] == parts[i]
    ensures PartStart(parts, sep, i) + |parts[i]| <= |Join(parts, sep)|
    ensures Join(parts, sep)[PartStart(parts, sep, i)..PartStart(parts, sep, i) + |parts[i]|] == parts[i]
  {
    JoinFirst(parts, sep);
    var s := PartStart(parts[1..], sep, i - 1);
    SliceShift(parts[0] + sep, Join(parts[1..], sep), s, s + |parts[i]|);
  }

  /** Between part `i` and part `i + 1` stands exactly one `sep`. */
  lemma {:induction false} JoinSeparatorAt(parts: seq<string>, sep: string, i: nat)
    requires i + 1 < |parts|
    ensures PartStart(parts, sep, i + 1) == PartStart(parts, sep, i) + |parts[i]| + |sep| <= |Join(parts, sep)|
    ensures Join(parts, sep)[PartStart(parts, sep, i) + |parts[i]|..PartStart(parts, sep, i + 1)] == sep
    decreases i
  {
    PartStartNext(parts, sep, i);
    JoinPartAt(parts, sep, i + 1);
    JoinFirst(parts, sep);
    if i == 0 {
      MiddleOf(parts[0], sep, Join(parts[1..], sep));
    } else {
      var x := parts[0] + sep;
      JoinSeparatorAt(parts[1..], sep, i - 1);
      var e := PartStart(parts[1..], sep, i - 1) + |parts[i]|;
      assert parts[1..][i - 1] == parts[i];
      SliceShift(x, Join(parts[1..], sep), e, e + |sep|);
    }
  }

  /** The length of a join: all parts plus one separator between each two neighbours. */
  lemma {:induction false} JoinLength(parts: seq<string>, sep: string)
    requires |parts| > 0
    ensures |Join(parts, sep)| + |sep| == PartStart(parts, sep, |parts|)
    decreases |parts|
  {
    if |parts| > 1 {
      JoinLength(parts[1..], sep);
    }
  }

  /** The empty corpus compiles to the empty string. */
  lemma CompileEmpty()
    ensures CompileContext([]) == ""
  {
  }

  /** Adding one paper at the end adds "\n" and its block at the end of the context. */
  lemma CompileSnoc(papers: seq<PaperData>, p: PaperData)
    ensures CompileContext(papers + [p])
         == (if papers == [] then Block(p) else CompileContext(papers) + "\n" + Block(p))
  {
    assert Blocks(papers + [p]) == Blocks(papers) + [Block(p)];
    if papers != [] {
      JoinConcat(Blocks(papers), [Block(p)], "\n");
    }
  }

  /** The block of a paper titled "A" with content "x". */
  lemma BlockOfA(id: string)
    ensures Block(PaperData(id, "A", "x")) == "Title: A\nContent:\nx\n---"
  {
  }

  /** The block of a paper titled "B" with content "y". */
  lemma BlockOfB(id: string)
    ensures Block(PaperData(id, "B", "y")) == "Title: B\nContent:\ny\n---"
  {
  }

  /** The two-paper example: `[A/x, B/y]`. */
  lemma CompileTwoPapers(idA: string, idB: string)
    ensures CompileContext([PaperData(idA, "A", "x"), PaperData(idB, "B", "y")])
         == "Title: A\nContent:\nx\n---\nTitle: B\nContent:\ny\n---"
  {
    var pa, pb := PaperData(idA, "A", "x"), PaperData(idB, "B", "y");
    CompileSnoc([], pa);
    CompileSnoc([pa], pb);
    assert [pa] + [pb] == [pa, pb];
    BlockOfA(idA);
    BlockOfB(idB);
    assert "Title: A\nContent:\nx\n---" + "\n" + "Title: B\nContent:\ny\n---"
        == "Title: A\nContent:\nx\n---\nTitle: B\nContent:\ny\n---";
  }

  /**
   * The context holds the title and the content of every paper verbatim, in
   * corpus order: paper `i`'s block starts at `BlockStart(papers, i)`, and a
   * "\n" parts it from the next block.
   */
  function BlockStart(papers: seq<PaperData>, i: nat): nat
    requires i <= |papers|
  {
    PartStart(Blocks(papers), "\n", i)
  }

  /** Paper `p`'s title, content and separator stand in `c` as the block starting at `s` lays them out. */
  predicate BlockAt(c: string, s: nat, p: PaperData) {
    var t := s + |TitleLabel|;
    var u := t + |p.title| + |ContentLabel|;
    var e := u + |p.content|;
    && e + |Separator| <= |c|
    && c[s..t] == TitleLabel
    && c[t..t + |p.title|] == p.title
    && c[t + |p.title|..u] == ContentLabel
    && c[u..e] == p.content
    && c[e..e + |Separator|] == Separator
  }

  /** A block, wherever it stands, shows its paper's title, content and separator. */
  lemma BlockFields(c: string, s: nat, p: PaperData)
    requires s + |Block(p)| <= |c| && c[s..s + |Block(p)|] == Block(p)
    ensures BlockAt(c, s, p)
  {
    FivePiecesAt(c, s, TitleLabel, p.title, ContentLabel, p.content, Separator);
  }

  /** Every paper's title and content stand verbatim in the context, each block ended by its separator. */
  lemma PaperAt(papers: seq<PaperData>, i: nat)
    requires i < |papers|
    ensures BlockAt(CompileContext(papers), BlockStart(papers, i), papers[i])
  {
    var parts := Blocks(papers);
    JoinPartAt(parts, "\n", i);
    assert parts[i] == Block(papers[i]);
    BlockFields(Join(parts, "\n"), PartStart(parts, "\n", i), papers[i]);
  }

  /** The blocks stand in corpus order: the next block begins one "\n" after this one ends. */
  lemma NextBlockAt(papers: seq<PaperData>, i: nat)
    requires i + 1 < |papers|
    ensures BlockStart(papers, i + 1) == BlockStart(papers, i) + |Block(papers[i])| + 1
    ensures BlockStart(papers, i + 1) <= |CompileContext(papers)|
    ensures CompileContext(papers)[BlockStart(papers, i + 1) - 1] == '\n'
  {
    var parts := Blocks(papers);
    JoinSeparatorAt(parts, "\n", i);
    assert parts[i] == Block(papers[i]);
    var c, e := Join(parts, "\n"), PartStart(parts, "\n", i) + |parts[i]|;
    assert c[e..e + 1][0] == c[e];
  }

  /** The context's length: every block plus one "\n" between each two neighbours. */
  lemma CompileLength(papers: seq<PaperData>)
    requires papers != []
    ensures |CompileContext(papers)| + 1 == BlockStart(papers, |papers|)
  {
    JoinLength(Blocks(papers), "\n");
  }
}
