/**
 * The Visitor demo: document elements, the statistics visitor that counts words, images,
 * tables and table cells, and the document that hands its fixed elements to a visitor.
 */
module DocumentVisitor {
  import opened Strings

  /** The three element kinds a document holds. */
  datatype Element =
    | Paragraph(text: string)
    | Image(source: string, altText: string)
    | Table(headers: seq<string>, data: seq<seq<string>>)

  /** The four counters of a statistics visitor. */
  datatype Statistics = Statistics(words: int, images: int, tables: int, cells: int)

  /** The words of a text as the visitor counts them: one more than there are spaces. */
  function WordsIn(text: string): nat
  {
    CountChar(text, ' ') + 1
  }

  /** The visitor's word count is the number of pieces `text.Split(' ')` yields. */
  lemma WordsAreSplitPieces(text: string)
    ensures WordsIn(text) == |Split(text, ' ')|
    ensures forall piece :: piece in Split(text, ' ') ==> ' ' !in piece
  {
    SplitLength(text, ' ');
  }

  /** The words in the cells of one row. */
  function RowWords(row: seq<string>): nat
  {
    if row == [] then 0 else RowWords(row[..|row| - 1]) + WordsIn(row[|row| - 1])
  }

  /** The words in all data cells of a table. */
  function DataWords(data: seq<seq<string>>): nat
  {
    if data == [] then 0 else DataWords(data[..|data| - 1]) + RowWords(data[|data| - 1])
  }

  /** The number of data cells of a table. */
  function DataCells(data: seq<seq<string>>): nat
  {
    if data == [] then 0 else DataCells(data[..|data| - 1]) + |data[|data| - 1]|
  }

  /** The counters after one element has been visited. */
  function AfterVisit(s: Statistics, e: Element): Statistics
  {
    match e
    case Paragraph(text) => s.(words := s.words + WordsIn(text))
    case Image(_, _) => s.(images := s.images + 1)
    case Table(headers, data) =>
      s.(tables := s.tables + 1, cells := s.cells + |headers| + DataCells(data),
         words := s.words + DataWords(data))
  }

  /** The counters after the elements have been visited one by one, first to last. */
  function AfterAccept(s: Statistics, elements: seq<Element>): Statistics
  {
    if elements == [] then s
    else AfterVisit(AfterAccept(s, elements[..|elements| - 1]), elements[|elements| - 1])
  }

  /** `StatisticsVisitor`: four counters that only the `Visit` methods change. */
  class StatisticsVisitor {
    var wordCount: int
    var imageCount: int
    var tableCount: int
    var tableCellCount: int

    /** The four counters as one value. */
    function Counters(): Statistics
      reads this
    {
      Statistics(wordCount, imageCount, tableCount, tableCellCount)
    }

    /** A new visitor has every counter at 0. */
    constructor ()
      ensures Counters() == Statistics(0, 0, 0, 0)
    {
      wordCount, imageCount, tableCount, tableCellCount := 0, 0, 0, 0;
    }

    /** `Visit(Paragraph)`: adds the paragraph's words. */
    method VisitParagraph(text: string)
      modifies this
      ensures Counters() == AfterVisit(old(Counters()), Paragraph(text))
    {
      WordsAreSplitPieces(text);
      wordCount := wordCount + |Split(text, ' ')|;
    }

    /** `Visit(Image)`: one image more. */
    method VisitImage(source: string, altText: string)
      modifies this
      ensures Counters() == AfterVisit(old(Counters()), Image(source, altText))
    {
      imageCount := imageCount + 1;
    }

    /**
     * `Visit(Table)`: one table more, the header cells and every data cell added to the
     * cell count, and the words of the data cells (not of the headers) to the word count.
     */
    method VisitTable(headers: seq<string>, data: seq<seq<string>>)
      modifies this
      ensures Counters() == AfterVisit(old(Counters()), Table(headers, data))
    {
      tableCount := tableCount + 1;
      tableCellCount := tableCellCount + |headers|;
      for i := 0 to |data|
        invariant tableCount == old(tableCount) + 1 && imageCount == old(imageCount)
        invariant tableCellCount == old(tableCellCount) + |headers| + DataCells(data[..i])
        invariant wordCount == old(wordCount) + DataWords(data[..i])
      {
        var row := data[i];
        tableCellCount := tableCellCount + |row|;
        for j := 0 to |row|
          invariant tableCount == old(tableCount) + 1 && imageCount == old(imageCount)
          invariant tableCellCount == old(tableCellCount) + |headers| + DataCells(data[..i]) + |row|
          invariant wordCount == old(wordCount) + DataWords(data[..i]) + RowWords(row[..j])
        {
          assert row[..j + 1][..j] == row[..j];
          WordsAreSplitPieces(row[j]);
          wordCount := wordCount + |Split(row[j], ' ')|;
        }
        assert row[..|row|] == row;
        assert data[..i + 1][..i] == data[..i];
      }
      assert data[..|data|] == data;
    }
  }

  /** `element.Accept(visitor)`: each element calls the visitor's overload for its kind. */
  method AcceptElement(e: Element, visitor: StatisticsVisitor)
    modifies visitor
    ensures visitor.Counters() == AfterVisit(old(visitor.Counters()), e)
  {
    match e
    case Paragraph(text) => visitor.VisitParagraph(text);
    case Image(source, altText) => visitor.VisitImage(source, altText);
    case Table(headers, data) => visitor.VisitTable(headers, data);
  }

  /** The table every document is built with: three headers and three rows of three cells. */
  function SampleTable(): Element
  {
    Table(["Name", "Age", "City"],
          [["John Doe", "30", "New York"],
           ["Jane Smith", "25", "Los Angeles"],
           ["Bob Johnson", "35", "Chicago"]])
  }

  /** The fixed elements of a document, in order. */
  function SampleElements(): seq<Element>
  {
    [Paragraph("Hello, World!"), Image("cat.jpg", "A cute cat"), SampleTable(),
     Paragraph("This is a test document.")]
  }

  /** `Document`: a fixed array of elements that `Accept` walks in order. */
  class Document {
    const elements: array<Element>

    constructor ()
      ensures fresh(elements) && elements[..] == SampleElements()
    {
      elements := new Element[4] [Paragraph("Hello, World!"), Image("cat.jpg", "A cute cat"),
        SampleTable(), Paragraph("This is a test document.")];
    }

    /** `Accept`: every element, first to last, visits the visitor once. */
    method Accept(visitor: StatisticsVisitor)
      modifies visitor
      ensures visitor.Counters() == AfterAccept(old(visitor.Counters()), elements[..])
      ensures elements[..] == old(elements[..])
    {
      for i := 0 to elements.Length
        invariant visitor.Counters() == AfterAccept(old(visitor.Counters()), elements[..i])
      {
        assert elements[..i + 1][..i] == elements[..i];
        AcceptElement(elements[i], visitor);
      }
      assert elements[..elements.Length] == elements[..];
    }
  }

  /** A new document accepted by a new visitor: 21 words, 1 image, 1 table and 12 cells. */
  method CountSampleDocument() returns (stats: Statistics)
    ensures stats == Statistics(21, 1, 1, 12)
  {
    var document := new Document();
    var visitor := new StatisticsVisitor();
    document.Accept(visitor);
    SampleTotals();
    stats := visitor.Counters();
  }

  /** The words of a row of three cells. */
  lemma ThreeCellRow(a: string, b: string, c: string)
    ensures RowWords([a, b, c]) == WordsIn(a) + WordsIn(b) + WordsIn(c)
  {
    assert [a][..0] == [];
    assert RowWords([a]) == WordsIn(a);
    assert [a, b][..1] == [a];
    assert RowWords([a, b]) == WordsIn(a) + WordsIn(b);
    assert [a, b, c][..2] == [a, b];
  }

  /** The words in each data row of the sample table. */
  lemma FirstRowWords()
    ensures RowWords(["John Doe", "30", "New York"]) == 5
  {
    ThreeCellRow("John Doe", "30", "New York");
    assert WordsIn("John Doe") == 2;
  }

  lemma SecondRowWords()
    ensures RowWords(["Jane Smith", "25", "Los Angeles"]) == 5
  {
    ThreeCellRow("Jane Smith", "25", "Los Angeles");
    assert WordsIn("Jane Smith") == 2;
  }

  lemma ThirdRowWords()
    ensures RowWords(["Bob Johnson", "35", "Chicago"]) == 4
  {
    ThreeCellRow("Bob Johnson", "35", "Chicago");
    assert WordsIn("Bob Johnson") == 2;
  }

  /** The words and cells of a table with three data rows. */
  lemma ThreeRowData(r1: seq<string>, r2: seq<string>, r3: seq<string>)
    ensures DataWords([r1, r2, r3]) == RowWords(r1) + RowWords(r2) + RowWords(r3)
    ensures DataCells([r1, r2, r3]) == |r1| + |r2| + |r3|
  {
    assert [r1][..0] == [];
    assert DataWords([r1]) == RowWords(r1) && DataCells([r1]) == |r1|;
    assert [r1, r2][..1] == [r1];
    assert DataWords([r1, r2]) == RowWords(r1) + RowWords(r2);
    assert DataCells([r1, r2]) == |r1| + |r2|;
    assert [r1, r2, r3][..2] == [r1, r2];
  }

  /** The sample table adds 14 words and 12 cells. */
  lemma SampleTableCounts()
    ensures DataWords(SampleTable().data) == 14
    ensures |SampleTable().headers| + DataCells(SampleTable().data) == 12
  {
    FirstRowWords();
    SecondRowWords();
    ThirdRowWords();
    ThreeRowData(["John Doe", "30", "New York"], ["Jane Smith", "25", "Los Angeles"],
                 ["Bob Johnson", "35", "Chicago"]);
  }

  /** Four elements are visited in order. */
  lemma FourElements(s: Statistics, a: Element, b: Element, c: Element, d: Element)
    ensures AfterAccept(s, [a, b, c, d]) == AfterVisit(AfterVisit(AfterVisit(AfterVisit(s, a), b), c), d)
  {
    assert [a][..0] == [];
    assert AfterAccept(s, [a]) == AfterVisit(s, a);
    assert [a, b][..1] == [a];
    assert AfterAccept(s, [a, b]) == AfterVisit(AfterVisit(s, a), b);
    assert [a, b, c][..2] == [a, b];
    assert AfterAccept(s, [a, b, c]) == AfterVisit(AfterVisit(AfterVisit(s, a), b), c);
    assert [a, b, c, d][..3] == [a, b, c];
  }

  /** The last paragraph in three pieces, and the spaces in each. */
  lemma LastParagraphPieces()
    ensures "This is " + "a test " + "document." == "This is a test document."
  {
  }

  lemma FirstPieceSpaces()
    ensures CountChar("This is ", ' ') == 2
  {
  }

  lemma SecondPieceSpaces()
    ensures CountChar("a test ", ' ') == 2
  {
  }

  lemma LastPieceSpaces()
    ensures CountChar("document.", ' ') == 0
  {
  }

  /** The words of the sample's first paragraph. */
  lemma FirstParagraphWords()
    ensures WordsIn("Hello, World!") == 2
  {
    assert CountChar("Hello, ", ' ') == 1 && CountChar("World!", ' ') == 0;
    CountCharConcat("Hello, ", "World!", ' ');
    assert "Hello, " + "World!" == "Hello, World!";
  }

  /** The words of the sample's last paragraph. */
  lemma LastParagraphWords()
    ensures WordsIn("This is a test document.") == 5
  {
    FirstPieceSpaces();
    SecondPieceSpaces();
    LastPieceSpaces();
    CountCharConcat("This is ", "a test ", ' ');
    CountCharConcat("This is " + "a test ", "document.", ' ');
    LastParagraphPieces();
  }

  /** The fixed elements, visited from all-zero counters, give 21, 1, 1 and 12. */
  lemma SampleTotals()
    ensures AfterAccept(Statistics(0, 0, 0, 0), SampleElements()) == Statistics(21, 1, 1, 12)
  {
    SampleTableCounts();
    FirstParagraphWords();
    LastParagraphWords();
    FourElements(Statistics(0, 0, 0, 0), Paragraph("Hello, World!"), Image("cat.jpg", "A cute cat"),
                 SampleTable(), Paragraph("This is a test document."));
  }

  /** Visiting one element never lowers a counter. */
  lemma VisitNeverDecreases(s: Statistics, e: Element)
    ensures var t := AfterVisit(s, e);
      t.words >= s.words && t.images >= s.images && t.tables >= s.tables && t.cells >= s.cells
  {
  }

  /** Accepting any elements never lowers a counter. */
  lemma {:induction false} AcceptNeverDecreases(s: Statistics, elements: seq<Element>)
    ensures var t := AfterAccept(s, elements);
      t.words >= s.words && t.images >= s.images && t.tables >= s.tables && t.cells >= s.cells
  {
    if elements != [] {
      AcceptNeverDecreases(s, elements[..|elements| - 1]);
      VisitNeverDecreases(AfterAccept(s, elements[..|elements| - 1]), elements[|elements| - 1]);
    }
  }

  /** A paragraph adds one word more than it has spaces, so an empty text still adds 1. */
  lemma ParagraphWords(s: Statistics, text: string)
    ensures AfterVisit(s, Paragraph(text)) == s.(words := s.words + CountChar(text, ' ') + 1)
    ensures AfterVisit(s, Paragraph("")).words == s.words + 1
  {
  }

  /** An image adds exactly 1 to the image count and changes no other counter. */
  lemma ImageCountsOne(s: Statistics, source: string, altText: string)
    ensures AfterVisit(s, Image(source, altText)) == s.(images := s.images + 1)
  {
  }

  /** Headers add cells but no words: only the data decides how many words a table adds. */
  lemma HeadersAddNoWords(s: Statistics, h1: seq<string>, h2: seq<string>, data: seq<seq<string>>)
    ensures AfterVisit(s, Table(h1, data)).words == AfterVisit(s, Table(h2, data)).words
    ensures AfterVisit(s, Table(h1, data)).cells - AfterVisit(s, Table(h2, data)).cells == |h1| - |h2|
  {
  }

  /** The number of elements of each kind. */
  function Images(elements: seq<Element>): nat
  {
    if elements == [] then 0
    else Images(elements[..|elements| - 1]) + (if elements[|elements| - 1].Image? then 1 else 0)
  }

  function Tables(elements: seq<Element>): nat
  {
    if elements == [] then 0
    else Tables(elements[..|elements| - 1]) + (if elements[|elements| - 1].Table? then 1 else 0)
  }

  /** Accepting adds one image per Image element and one table per Table element. */
  lemma {:induction false} AcceptCountsKinds(s: Statistics, elements: seq<Element>)
    ensures AfterAccept(s, elements).images == s.images + Images(elements)
    ensures AfterAccept(s, elements).tables == s.tables + Tables(elements)
  {
    if elements != [] {
      AcceptCountsKinds(s, elements[..|elements| - 1]);
    }
  }

  /** Visiting `a` and then `b` is visiting `a + b`: each element once, in order. */
  lemma {:induction false} AcceptConcat(s: Statistics, a: seq<Element>, b: seq<Element>)
    ensures AfterAccept(s, a + b) == AfterAccept(AfterAccept(s, a), b)
  {
    if b == [] {
      assert a + b == a;
    } else {
      assert (a + b)[..|a + b| - 1] == a + b[..|b| - 1];
      AcceptConcat(s, a, b[..|b| - 1]);
    }
  }
}
