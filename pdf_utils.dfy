/**
  Text extraction from a PDF: the pages are visited in order and each one
  contributes the strings of its text items joined by single spaces and
  followed by a newline. The document itself is abstracted as the list of
  its pages' text items.
*/
module PdfUtils {
  import opened Text

  /** The contribution of one page: its items joined by spaces, then `\n`. */
  function PageText(items: seq<string>): string {
    Join(items, " ") + "\n"
  }

  /** The in-order concatenation of the contributions of `pages`. */
  function AllPages(pages: seq<seq<string>>): string
    decreases |pages|
  {
    if pages == [] then "" else PageText(pages[0]) + AllPages(pages[1..])
  }

  /** Appending a page appends its contribution: what the accumulating loop relies on. */
  lemma {:induction false} AllPagesSnoc(pages: seq<seq<string>>, page: seq<string>)
    ensures AllPages(pages + [page]) == AllPages(pages) + PageText(page)
    decreases |pages|
  {
    if pages == [] {
      assert [] + [page] == [page];
      assert [page][1..] == [];
    } else {
      assert (pages + [page])[1..] == pages[1..] + [page];
      AllPagesSnoc(pages[1..], page);
    }
  }

  /** `extractTextFromPDF`: for i in 1..numPages, `text += items.join(' ') + '\n'`. */
  method ExtractText(pages: seq<seq<string>>) returns (text: string)
    ensures text == AllPages(pages)
  {
    text := "";
    var i := 1;
    while i <= |pages|
      invariant 1 <= i <= |pages| + 1
      invariant text == AllPages(pages[..i - 1])
    {
      assert pages[..i] == pages[..i - 1] + [pages[i - 1]];
      AllPagesSnoc(pages[..i - 1], pages[i - 1]);
      text := text + Join(pages[i - 1], " ") + "\n";
      i := i + 1;
    }
    assert pages[..i - 1] == pages;
  }

  /** A document without pages yields the empty string; with pages, the text ends with a newline. */
  lemma {:induction false} AllPagesEnds(pages: seq<seq<string>>)
    ensures pages == [] <==> AllPages(pages) == ""
    ensures pages != [] ==> AllPages(pages)[|AllPages(pages)| - 1] == '\n'
    decreases |pages|
  {
    if pages != [] {
      var rest := AllPages(pages[1..]);
      AllPagesEnds(pages[1..]);
      if rest == "" {
        assert AllPages(pages) == PageText(pages[0]);
      } else {
        assert AllPages(pages)[|AllPages(pages)| - 1] == rest[|rest| - 1];
      }
    }
  }

  /** The line of text each page contributes. */
  function PageLines(pages: seq<seq<string>>): (lines: seq<string>)
    ensures |lines| == |pages|
  {
    seq(|pages|, k requires 0 <= k < |pages| => Join(pages[k], " "))
  }

  /** The extracted text is the page lines joined by newlines, with a final newline. */
  lemma {:induction false} AllPagesAsLines(pages: seq<seq<string>>)
    ensures AllPages(pages) == Join(PageLines(pages) + [""], "\n")
    decreases |pages|
  {
    if pages != [] {
      AllPagesAsLines(pages[1..]);
      var lines := PageLines(pages) + [""];
      assert lines[1..] == PageLines(pages[1..]) + [""];
      assert lines[0] == Join(pages[0], " ");
    }
  }

  /**
    When no text item contains a newline, splitting the extracted text on
    newlines recovers each page's line, in page order, plus a final empty
    piece after the last newline.
  */
  lemma SplitRecoversPages(pages: seq<seq<string>>)
    requires forall k, j :: 0 <= k < |pages| && 0 <= j < |pages[k]| ==> '\n' !in pages[k][j]
    ensures Split(AllPages(pages), '\n') == PageLines(pages) + [""]
  {
    var lines := PageLines(pages) + [""];
    forall i | 0 <= i < |lines| ensures '\n' !in lines[i] {
      if i < |pages| {
        JoinExcludes(pages[i], " ", '\n');
      }
    }
    AllPagesAsLines(pages);
    SplitJoin(lines, '\n');
  }
}
