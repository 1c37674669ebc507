/**
 * The last step of every load: each raw result becomes a (content, metadata)
 * document, and results whose content is empty are skipped.
 */
module Normalisation {
  import opened Wrappers
  import opened Firecrawl

  /**
   * The first filled attribute of `fields`, or "" when none is filled: the
   * value of Python's `a or b or c` once a falsy result is read as "".
   */
  function FirstFilled(fields: seq<Option<string>>): (c: string)
    ensures c != "" <==> exists i :: 0 <= i < |fields| && Filled(fields[i])
    ensures c != "" ==>
              exists i :: 0 <= i < |fields| && Filled(fields[i]) && fields[i].value == c &&
                          forall j :: 0 <= j < i ==> !Filled(fields[j])
  {
    if fields == [] then ""
    else if Filled(fields[0]) then fields[0].value
    else
      var c := FirstFilled(fields[1..]);
      assert c != "" ==> exists i :: 0 <= i < |fields| && Filled(fields[i]) && fields[i].value == c &&
                                     forall j :: 0 <= j < i ==> !Filled(fields[j]) by {
        if c != "" {
          var k :| 0 <= k < |fields[1..]| && Filled(fields[1..][k]) && fields[1..][k].value == c &&
                   forall j :: 0 <= j < k ==> !Filled(fields[1..][j]);
          assert fields[k + 1] == fields[1..][k];
          assert forall j :: 1 <= j < k + 1 ==> fields[j] == fields[1..][j - 1];
        }
      }
      assert (exists i :: 0 <= i < |fields| && Filled(fields[i])) ==> c != "" by {
        if exists i :: 0 <= i < |fields| && Filled(fields[i]) {
          var i :| 0 <= i < |fields| && Filled(fields[i]);
          assert i != 0;
          assert fields[1..][i - 1] == fields[i];
        }
      }
      c
  }

  /**
   * The content of a page: markdown if non-empty, else html if non-empty,
   * else rawHtml, else "".
   */
  function PageContent(p: Page): (c: string)
    ensures Filled(p.markdown) ==> c == p.markdown.value
    ensures !Filled(p.markdown) && Filled(p.html) ==> c == p.html.value
    ensures !Filled(p.markdown) && !Filled(p.html) ==> c == p.rawHtml.GetOr("")
  {
    var fields := [p.markdown, p.html, p.rawHtml];
    assert fields[0] == p.markdown && fields[1] == p.html && fields[2] == p.rawHtml;
    assert fields[1..] == [p.html, p.rawHtml] && fields[2..] == [p.rawHtml];
    FirstFilled(fields)
  }

  /** The metadata of a page: its metadata mapping when present and non-empty, else the empty map. */
  function PageMetadata(p: Page): (m: map<string, Value>)
    ensures m == map[] <==> p.metadata.None? || p.metadata.value == map[]
    ensures m != map[] ==> m == p.metadata.value
  {
    match p.metadata
    case None => map[]
    case Some(m) => m
  }

  /** Map and extract results are plain strings used as the content itself. */
  predicate UsesItemAsContent(mode: Mode) {
    mode == Map || mode == Extract
  }

  /** The client returns strings in map and extract mode and page objects otherwise. */
  predicate ItemFits(mode: Mode, item: RawItem) {
    UsesItemAsContent(mode) <==> item.TextItem?
  }

  predicate Fits(mode: Mode, items: seq<RawItem>) {
    forall i :: 0 <= i < |items| ==> ItemFits(mode, items[i])
  }

  /** The document one raw result would yield, empty content included. */
  function ToDocument(mode: Mode, item: RawItem): Document
    requires ItemFits(mode, item)
  {
    if UsesItemAsContent(mode) then Document(item.text, map[])
    else Document(PageContent(item.page), PageMetadata(item.page))
  }

  /** The documents a load yields from its raw results, in order. */
  function Normalised(mode: Mode, items: seq<RawItem>): (docs: seq<Document>)
    requires Fits(mode, items)
    ensures |docs| <= |items|
    ensures forall j :: 0 <= j < |docs| ==> docs[j].pageContent != ""
  {
    if items == [] then []
    else
      var n := |items| - 1;
      var init := Normalised(mode, items[..n]);
      var d := ToDocument(mode, items[n]);
      if d.pageContent == "" then init else init + [d]
  }

  /** The positions of the raw results that yield a document, in increasing order. */
  function Kept(mode: Mode, items: seq<RawItem>): (ks: seq<nat>)
    requires Fits(mode, items)
    ensures |ks| == |Normalised(mode, items)|
    ensures forall j :: 0 <= j < |ks| ==> ks[j] < |items|
    ensures forall j, j' :: 0 <= j < j' < |ks| ==> ks[j] < ks[j']
  {
    if items == [] then []
    else
      var n := |items| - 1;
      var init := Kept(mode, items[..n]);
      if ToDocument(mode, items[n]).pageContent == "" then init else init + [n]
  }

  /** Every prefix of well-shaped results is well shaped. */
  lemma FitsPrefix(mode: Mode, items: seq<RawItem>, n: nat)
    requires Fits(mode, items) && n <= |items|
    ensures Fits(mode, items[..n])
  {
  }

  /** One more result adds its document, unless its content is empty. */
  lemma NormalisedSnoc(mode: Mode, items: seq<RawItem>, item: RawItem)
    requires Fits(mode, items) && ItemFits(mode, item)
    ensures Fits(mode, items + [item])
    ensures var d := ToDocument(mode, item);
      Normalised(mode, items + [item]) == Normalised(mode, items) + (if d.pageContent == "" then [] else [d])
  {
    FitsAppend(mode, items, [item]);
    assert (items + [item])[..|items|] == items;
  }

  /**
   * The j-th document comes from the result at position Kept[j]; with
   * Kept's contract (positions strictly increase) the documents are the
   * results' documents in their original order.
   */
  lemma {:induction false} NormalisedFromKept(mode: Mode, items: seq<RawItem>)
    requires Fits(mode, items)
    ensures forall j :: 0 <= j < |Kept(mode, items)| ==>
              Normalised(mode, items)[j] == ToDocument(mode, items[Kept(mode, items)[j]])
  {
    if items != [] {
      var n := |items| - 1;
      var init := items[..n];
      FitsPrefix(mode, items, n);
      NormalisedFromKept(mode, init);
      var ks, docs := Kept(mode, items), Normalised(mode, items);
      var ks0, docs0 := Kept(mode, init), Normalised(mode, init);
      forall j | 0 <= j < |ks| ensures docs[j] == ToDocument(mode, items[ks[j]]) {
        if j < |ks0| {
          assert ks[j] == ks0[j] && docs[j] == docs0[j];
          assert init[ks0[j]] == items[ks0[j]];
        }
      }
    }
  }

  /** A result is kept exactly when its content is non-empty: no other result is skipped. */
  lemma {:induction false} KeptExactlyNonEmpty(mode: Mode, items: seq<RawItem>)
    requires Fits(mode, items)
    ensures forall i :: 0 <= i < |items| ==>
              (i in Kept(mode, items) <==> ToDocument(mode, items[i]).pageContent != "")
  {
    if items != [] {
      var n := |items| - 1;
      var init := items[..n];
      FitsPrefix(mode, items, n);
      KeptExactlyNonEmpty(mode, init);
      var ks, ks0 := Kept(mode, items), Kept(mode, init);
      var skipped := ToDocument(mode, items[n]).pageContent == "";
      assert ks == if skipped then ks0 else ks0 + [n];
      assert n !in ks0;
      forall i | 0 <= i < |items| ensures i in ks <==> ToDocument(mode, items[i]).pageContent != "" {
        if i < n {
          assert init[i] == items[i];
          assert i in ks0 <==> ToDocument(mode, init[i]).pageContent != "";
          assert i in ks <==> i in ks0;
        } else if skipped {
          assert i !in ks;
        } else {
          assert ks[|ks| - 1] == i;
        }
      }
    }
  }

  /** Map and extract documents carry the raw string itself and empty metadata. */
  lemma VerbatimDocuments(mode: Mode, items: seq<RawItem>)
    requires Fits(mode, items)
    requires UsesItemAsContent(mode)
    ensures forall j :: 0 <= j < |Kept(mode, items)| ==>
              Normalised(mode, items)[j] == Document(items[Kept(mode, items)[j]].text, map[])
  {
    NormalisedFromKept(mode, items);
  }

  /** In the other modes a document carries its page's content and metadata. */
  lemma PageDocuments(mode: Mode, items: seq<RawItem>)
    requires Fits(mode, items)
    requires !UsesItemAsContent(mode)
    ensures forall j :: 0 <= j < |Kept(mode, items)| ==>
              var p := items[Kept(mode, items)[j]].page;
              Normalised(mode, items)[j] == Document(PageContent(p), PageMetadata(p))
  {
    NormalisedFromKept(mode, items);
  }

  /** Concatenating well-shaped results gives well-shaped results. */
  lemma FitsAppend(mode: Mode, a: seq<RawItem>, b: seq<RawItem>)
    requires Fits(mode, a) && Fits(mode, b)
    ensures Fits(mode, a + b)
  {
    forall i | 0 <= i < |a + b| ensures ItemFits(mode, (a + b)[i]) {
      if i < |a| { assert (a + b)[i] == a[i]; } else { assert (a + b)[i] == b[i - |a|]; }
    }
  }

  /**
   * Normalisation works result by result: the documents of a concatenation
   * are those of its parts, so every prefix of the results yields a prefix
   * of the documents.
   */
  lemma {:induction false} NormalisedAppend(mode: Mode, a: seq<RawItem>, b: seq<RawItem>)
    requires Fits(mode, a) && Fits(mode, b)
    ensures Fits(mode, a + b)
    ensures Normalised(mode, a + b) == Normalised(mode, a) + Normalised(mode, b)
  {
    FitsAppend(mode, a, b);
    if b != [] {
      var n := |b| - 1;
      var init, last := b[..n], b[n];
      assert b == init + [last];
      assert a + b == (a + init) + [last];
      FitsPrefix(mode, b, n);
      NormalisedAppend(mode, a, init);
      NormalisedAppendStep(mode, Normalised(mode, a), a + init, init, last);
    } else {
      assert a + b == a;
    }
  }

  /**
   * The inductive step of `NormalisedAppend`: if the documents of `ab` are
   * `pre` followed by those of `b`, one more result keeps that so.
   */
  lemma NormalisedAppendStep(mode: Mode, pre: seq<Document>, ab: seq<RawItem>, b: seq<RawItem>, item: RawItem)
    requires Fits(mode, ab) && Fits(mode, b) && ItemFits(mode, item)
    requires Normalised(mode, ab) == pre + Normalised(mode, b)
    ensures Fits(mode, ab + [item]) && Fits(mode, b + [item])
    ensures Normalised(mode, ab + [item]) == pre + Normalised(mode, b + [item])
  {
    NormalisedSnoc(mode, ab, item);
    NormalisedSnoc(mode, b, item);
    var d := ToDocument(mode, item);
    var tail := if d.pageContent == "" then [] else [d];
    assert (pre + Normalised(mode, b)) + tail == pre + (Normalised(mode, b) + tail);
  }

  /** Yields, in order, the document of every raw result whose content is non-empty. */
  method NormaliseItems(mode: Mode, items: seq<RawItem>) returns (docs: seq<Document>)
    requires Fits(mode, items)
    ensures docs == Normalised(mode, items)
  {
    docs := [];
    for i := 0 to |items|
      invariant docs == Normalised(mode, items[..i])
    {
      assert items[..i + 1][..i] == items[..i];
      var content: string;
      var metadata: map<string, Value>;
      if mode == Map || mode == Extract {
        content := items[i].text;
        metadata := map[];
      } else {
        content := PageContent(items[i].page);
        metadata := PageMetadata(items[i].page);
      }
      if content == "" {
        continue;
      }
      docs := docs + [Document(content, metadata)];
    }
    assert items[..|items|] == items;
  }

  /** Map mode with links ["a", "b"] yields two documents, "a" then "b", with empty metadata. */
  lemma MapExample()
    ensures Normalised(Map, [TextItem("a"), TextItem("b")])
            == [Document("a", map[]), Document("b", map[])]
  {
  }
}
