/**
 * The document corpus of the ingest screen (components/IngestScreen.tsx): an
 * ordered list of papers, the two paste fields, and the analyze gate.
 */
module Ingest {
  import opened Wrappers
  import opened Types
  import opened Text

  /** One file the user picked: its name and the text `file.text()` resolved to. */
  datatype SourceFile = SourceFile(name: string, text: string)

  /** The papers an upload appends: one per file, in file order, each with its own id. */
  function FilePapers(files: seq<SourceFile>, ids: seq<string>): (r: seq<PaperData>)
    requires |ids| == |files|
    ensures |r| == |files|
    ensures forall i :: 0 <= i < |files| ==> r[i] == PaperData(ids[i], files[i].name, files[i].text)
  {
    if files == [] then []
    else
      var n := |files| - 1;
      FilePapers(files[..n], ids[..n]) + [PaperData(ids[n], files[n].name, files[n].text)]
  }

  /** `papers.filter(p => p.id !== id)`. */
  function WithoutId(papers: seq<PaperData>, id: string): seq<PaperData> {
    if papers == [] then []
    else (if papers[0].id == id then [] else [papers[0]]) + WithoutId(papers[1..], id)
  }

  /** A paper survives the filter exactly when it was there and has another id. */
  lemma {:induction false} WithoutIdMembers(papers: seq<PaperData>, id: string, p: PaperData)
    ensures p in WithoutId(papers, id) <==> p in papers && p.id != id
  {
    if papers != [] {
      WithoutIdMembers(papers[1..], id, p);
      assert papers == [papers[0]] + papers[1..];
    }
  }

  /** Filtering a concatenation filters each part and keeps them in order. */
  lemma {:induction false} WithoutIdConcat(a: seq<PaperData>, b: seq<PaperData>, id: string)
    ensures WithoutId(a + b, id) == WithoutId(a, id) + WithoutId(b, id)
  {
    if a == [] {
      assert a + b == b;
    } else {
      assert (a + b)[0] == a[0];
      assert (a + b)[1..] == a[1..] + b;
      WithoutIdConcat(a[1..], b, id);
    }
  }

  /** When no paper has the id, nothing is removed. */
  lemma {:induction false} WithoutIdAbsent(papers: seq<PaperData>, id: string)
    requires forall i :: 0 <= i < |papers| ==> papers[i].id != id
    ensures WithoutId(papers, id) == papers
  {
    if papers != [] {
      WithoutIdAbsent(papers[1..], id);
    }
  }

  /** Removing twice is removing once. */
  lemma WithoutIdIdempotent(papers: seq<PaperData>, id: string)
    ensures WithoutId(WithoutId(papers, id), id) == WithoutId(papers, id)
  {
    var r := WithoutId(papers, id);
    forall i | 0 <= i < |r| ensures r[i].id != id {
      WithoutIdMembers(papers, id, r[i]);
    }
    WithoutIdAbsent(r, id);
  }

  /** The component's state. */
  class IngestScreen {
    var papers: seq<PaperData>
    var pastedTitle: string
    var pastedContent: string

    /** Mount: no papers, empty paste fields. */
    constructor ()
      ensures papers == [] && pastedTitle == "" && pastedContent == ""
    {
      papers := [];
      pastedTitle := "";
      pastedContent := "";
    }

    /** The title field's change handler. */
    method SetPastedTitle(title: string)
      modifies this`pastedTitle
      ensures pastedTitle == title
    {
      pastedTitle := title;
    }

    /** The content field's change handler. */
    method SetPastedContent(content: string)
      modifies this`pastedContent
      ensures pastedContent == content
    {
      pastedContent := content;
    }

    /**
     * `handleAddPaper`: when neither field is blank, append one paper with the
     * untrimmed fields and clear both fields; otherwise change nothing.
     */
    method HandleAddPaper(id: string) returns (added: bool)
      modifies this`papers, this`pastedTitle, this`pastedContent
      ensures added == (!IsBlank(old(pastedTitle)) && !IsBlank(old(pastedContent)))
      ensures added ==>
        && papers == old(papers) + [PaperData(id, old(pastedTitle), old(pastedContent))]
        && pastedTitle == "" && pastedContent == ""
      ensures !added ==>
        && papers == old(papers)
        && pastedTitle == old(pastedTitle) && pastedContent == old(pastedContent)
    {
      if IsBlank(pastedTitle) || IsBlank(pastedContent) {
        return false;
      }
      papers := papers + [PaperData(id, pastedTitle, pastedContent)];
      pastedTitle := "";
      pastedContent := "";
      added := true;
    }

    /**
     * `handleFileUpload`: with no file list, change nothing; otherwise append
     * one paper per file, in file order, after the papers already there.
     * `ids` are the clock-derived ids the loop gives the files.
     */
    method HandleFileUpload(files: Option<seq<SourceFile>>, ids: seq<string>)
      requires files.Some? ==> |ids| == |files.value|
      modifies this`papers
      ensures files.None? ==> papers == old(papers)
      ensures files.Some? ==> papers == old(papers) + FilePapers(files.value, ids)
    {
      if files.None? {
        return;
      }
      var fs := files.value;
      for i := 0 to |fs|
        invariant papers == old(papers) + FilePapers(fs[..i], ids[..i])
      {
        assert fs[..i + 1][..i] == fs[..i] && ids[..i + 1][..i] == ids[..i];
        papers := papers + [PaperData(ids[i], fs[i].name, fs[i].text)];
      }
      assert fs[..|fs|] == fs && ids[..|ids|] == ids;
    }

    /** `removePaper`: drop every paper with the id, keep the rest in order. */
    method RemovePaper(id: string)
      modifies this`papers
      ensures papers == WithoutId(old(papers), id)
    {
      papers := WithoutId(papers, id);
    }

    /** `handleAnalyze`: the list handed to `onStartAnalysis`, only when it is non-empty. */
    method HandleAnalyze() returns (r: Option<seq<PaperData>>)
      ensures r.Some? <==> |papers| > 0
      ensures r.Some? ==> r.value == papers
    {
      if |papers| > 0 {
        r := Some(papers);
      } else {
        r := None;
      }
    }

    /**
     * A click on the analyze button, which is disabled while the list is empty
     * or a start is in flight: the list handed on, if the click goes through.
     */
    method ClickAnalyze(isProcessing: bool) returns (r: Option<seq<PaperData>>)
      ensures r.Some? <==> papers != [] && !isProcessing
      ensures r.Some? ==> r.value == papers
    {
      if papers == [] || isProcessing {
        return None;
      }
      r := HandleAnalyze();
    }
  }
}
