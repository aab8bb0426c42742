/** The retrieval tool: one vector collection per ingested PDF, keyed by a
    name derived from the file name; switching between collections; and the
    question-answering decision tree (retrieve, rerank, keep three, build the
    context, generate, cite the sources). The vector database, the PDF
    loader and splitter, the ranker and the language model are oracles. */
module Rag {
  import opened Common

  /** A retrieved chunk: its text and its metadata, both opaque here. */
  datatype Doc = Doc(content: string, metadata: map<string, string>)

  /** One entry of the "sources" list of an answer. */
  datatype Source = Source(content: string, metadata: map<string, string>)

  /** The dictionary {"answer": ..., "sources": [...]} that `query` returns. */
  datatype RagResponse = RagResponse(answer: string, sources: seq<Source>)

  /** What the answer-generation prompt is filled with. */
  datatype QaPrompt = QaPrompt(context: string, history: seq<ChatMessage>, question: string)

  /** The external services `query` can call, in the order it calls them. */
  datatype Service = Retrieve | Rank | Generate

  /** The answer of one `query`, together with the services it called. */
  datatype QueryRun = QueryRun(response: RagResponse, called: seq<Service>)

  /** The services `query` uses: similarity search in a collection (at most
      five chunks are asked for), the reranker (given the question and the
      passage texts, identified by position, it lists passage ids from the
      best score down) and the answering model. */
  datatype QueryServices = QueryServices(
    retriever: (string, string) -> Call<seq<Doc>>,
    ranker: (string, seq<string>) -> Call<seq<nat>>,
    generator: QaPrompt -> Call<string>)

  /** The services `load_pdf` uses: listing the collections, creating one,
      loading + splitting + embedding + storing the PDF at a path (the chunks
      stored), and opening a vector store on an existing collection. */
  datatype LoadServices = LoadServices(
    listing: Call<()>,
    create: string -> Call<()>,
    ingest: string -> Call<seq<Doc>>,
    attach: string -> Call<()>)

  /** The effect of one `load_pdf` on the vector database. */
  datatype LoadOutcome = LoadOutcome(ok: bool, collections: map<string, seq<Doc>>)

  const NoPdfLoaded := "No PDF loaded. Please upload a PDF first."
  const NoRelevantInfo := "No relevant information found in the document."
  const ErrorPrefix := "Error processing query: "
  const IndexOutOfRange := "list index out of range"

  // ---------------------------------------------------------------------------
  // Collection names

  /** ".pdf" starts at position i of s. */
  predicate PdfAt(s: string, i: int) {
    0 <= i && i + 4 <= |s| && s[i] == '.' && s[i + 1] == 'p' && s[i + 2] == 'd' && s[i + 3] == 'f'
  }

  /** `s.replace('.pdf', '')`: one left-to-right scan that drops every
      non-overlapping occurrence of ".pdf" (case-sensitive). */
  function RemovePdf(s: string): (r: string)
    ensures |r| <= |s|
  {
    if PdfAt(s, 0) then RemovePdf(s[4..])
    else if s == [] then []
    else [s[0]] + RemovePdf(s[1..])
  }

  /** Every occurrence is removed, wherever it stands: what precedes an
      occurrence and what follows it are cleaned independently. */
  lemma {:induction false} RemovePdfAround(a: string, b: string)
    ensures RemovePdf(a + ".pdf" + b) == RemovePdf(a) + RemovePdf(b)
    decreases |a|
  {
    var s := a + ".pdf" + b;
    if a == [] {
      assert PdfAt(s, 0) && s[4..] == b;
    } else if PdfAt(a, 0) {
      assert PdfAt(s, 0);
      assert s[4..] == a[4..] + ".pdf" + b;
      RemovePdfAround(a[4..], b);
    } else {
      assert !PdfAt(s, 0) by {
        if |a| < 4 {
          assert s[|a|] == '.';
        }
      }
      assert s[1..] == a[1..] + ".pdf" + b;
      RemovePdfAround(a[1..], b);
    }
  }

  /** A name with no '.' in it is left as it is. */
  lemma {:induction false} RemovePdfNone(s: string)
    requires '.' !in s
    ensures RemovePdf(s) == s
    decreases |s|
  {
    if s != [] {
      assert s[0] in s;
      assert forall c :: c in s[1..] ==> c in s;
      RemovePdfNone(s[1..]);
    }
  }

  /** The scan is single-pass: removing an occurrence can join its neighbours
      into a new ".pdf", which stays. */
  lemma RemovePdfSinglePass()
    ensures RemovePdf("..pdfpdf") == ".pdf"
  {
    var s := "..pdfpdf";
    assert !PdfAt(s, 0);
    assert PdfAt(s[1..], 0);
    assert s[1..][4..] == "pdf";
    RemovePdfNone("pdf");
  }

  /** `c if c.isalnum() else '_'`, followed by the final `lower()`. */
  function KeyChar(c: char): char {
    if IsAlnum(c) then LowerChar(c) else '_'
  }

  /** `_sanitize_collection_name`: drop ".pdf", turn every character that is
      not a letter or digit into '_', keep the first 50, prefix "pdf_" and
      lower-case the whole. */
  function Sanitize(pdfName: string): (r: string)
    ensures |r| == 4 + Min(|RemovePdf(pdfName)|, 50) && |r| <= 54
    ensures r[0] == 'p' && r[1] == 'd' && r[2] == 'f' && r[3] == '_'
    ensures forall k :: 4 <= k < |r| ==> r[k] == KeyChar(RemovePdf(pdfName)[k - 4])
  {
    var base := RemovePdf(pdfName);
    var replaced := seq(|base|, k requires 0 <= k < |base| => if IsAlnum(base[k]) then base[k] else '_');
    Lower("pdf_" + Take(replaced, 50))
  }

  /** Every collection name is "pdf_" followed by lower-case letters, digits
      and underscores. */
  lemma SanitizeAlphabet(pdfName: string)
    ensures var r := Sanitize(pdfName);
      forall k :: 4 <= k < |r| ==> 'a' <= r[k] <= 'z' || '0' <= r[k] <= '9' || r[k] == '_'
  {
    var r := Sanitize(pdfName);
    forall k | 4 <= k < |r| ensures 'a' <= r[k] <= 'z' || '0' <= r[k] <= '9' || r[k] == '_' {
      assert r[k] == KeyChar(RemovePdf(pdfName)[k - 4]);
    }
  }

  /** Distinct file names can share a collection: case, punctuation and
      everything past the fiftieth character are lost. */
  lemma SanitizeCollides(a: string, b: string)
    requires |RemovePdf(a)| >= 50 && |RemovePdf(b)| >= 50
    requires forall k :: 0 <= k < 50 ==> KeyChar(RemovePdf(a)[k]) == KeyChar(RemovePdf(b)[k])
    ensures Sanitize(a) == Sanitize(b)
  {
    var ra, rb := Sanitize(a), Sanitize(b);
    assert |ra| == |rb| == 54;
    forall k | 0 <= k < 54 ensures ra[k] == rb[k] {
      if k < 4 {
        assert ra[..4][k] == rb[..4][k];
      }
    }
  }

  /** The documented example "TEST.pdf". */
  lemma SanitizeTest()
    ensures Sanitize("TEST.pdf") == "pdf_test"
  {
    RemovePdfSuffix("TEST");
    assert "TEST" + ".pdf" == "TEST.pdf";
    SanitizeTestKeys("TEST.pdf");
  }

  /** The documented example "My Document (2024).pdf": the space and both
      parentheses become underscores. */
  lemma SanitizeMyDocument()
    ensures Sanitize("My Document (2024).pdf") == "pdf_my_document__2024_"
  {
    RemovePdfSuffix("My Document (2024)");
    assert "My Document (2024)" + ".pdf" == "My Document (2024).pdf";
    SanitizeMyDocumentKeys("My Document (2024).pdf");
  }

  /** A name without '.' followed by ".pdf" loses just that suffix. */
  lemma RemovePdfSuffix(n: string)
    requires '.' !in n
    ensures RemovePdf(n + ".pdf") == n
  {
    assert n + ".pdf" + "" == n + ".pdf";
    RemovePdfAround(n, "");
    RemovePdfNone(n);
  }

  /** Steps of the two documented examples. Each key is checked character
      by character, a few positions per lemma, and only then compared with
      the literal: comparing a computed key with a string literal in one
      step is far more work for the verifier. */
  lemma SanitizeTestKeys(pdfName: string)
    requires RemovePdf(pdfName) == "TEST"
    ensures Sanitize(pdfName) == "pdf_test"
  {
    var n := "TEST";
    var r := Sanitize(pdfName);
    assert r[4] == KeyChar(n[0]) == 't';
    assert r[5] == KeyChar(n[1]) == 'e';
    assert r[6] == KeyChar(n[2]) == 's';
    assert r[7] == KeyChar(n[3]) == 't';
    assert r[..4] == "pdf_";
    SpelledTestKey(r);
  }

  lemma SanitizeMyDocumentKeys(pdfName: string)
    requires RemovePdf(pdfName) == "My Document (2024)"
    ensures Sanitize(pdfName) == "pdf_my_document__2024_"
  {
    var r := Sanitize(pdfName);
    assert r[..4] == "pdf_";
    assert r[0] == 'p' && r[1] == 'd' && r[2] == 'f' && r[3] == '_';
    MyDocumentKeys4(pdfName);
    MyDocumentKeys10(pdfName);
    MyDocumentKeys16(pdfName);
    SpelledMyDocumentKey(r);
  }

  /** Positions 4-9, 10-15 and 16-21 of the second example's key. */
  lemma MyDocumentKeys4(pdfName: string)
    requires RemovePdf(pdfName) == "My Document (2024)"
    ensures var r := Sanitize(pdfName); |r| == 22 && r[4] == 'm' && r[5] == 'y' && r[6] == '_' && r[7] == 'd' && r[8] == 'o' && r[9] == 'c'
  {
    var n := "My Document (2024)";
    var r := Sanitize(pdfName);
    assert r[4] == KeyChar(n[0]) == 'm';
    assert r[5] == KeyChar(n[1]) == 'y';
    assert r[6] == KeyChar(n[2]) == '_';
    assert r[7] == KeyChar(n[3]) == 'd';
    assert r[8] == KeyChar(n[4]) == 'o';
    assert r[9] == KeyChar(n[5]) == 'c';
  }

  lemma MyDocumentKeys10(pdfName: string)
    requires RemovePdf(pdfName) == "My Document (2024)"
    ensures var r := Sanitize(pdfName); |r| == 22 && r[10] == 'u' && r[11] == 'm' && r[12] == 'e' && r[13] == 'n' && r[14] == 't' && r[15] == '_'
  {
    var n := "My Document (2024)";
    var r := Sanitize(pdfName);
    assert r[10] == KeyChar(n[6]) == 'u';
    assert r[11] == KeyChar(n[7]) == 'm';
    assert r[12] == KeyChar(n[8]) == 'e';
    assert r[13] == KeyChar(n[9]) == 'n';
    assert r[14] == KeyChar(n[10]) == 't';
    assert r[15] == KeyChar(n[11]) == '_';
  }

  lemma MyDocumentKeys16(pdfName: string)
    requires RemovePdf(pdfName) == "My Document (2024)"
    ensures var r := Sanitize(pdfName); |r| == 22 && r[16] == '_' && r[17] == '2' && r[18] == '0' && r[19] == '2' && r[20] == '4' && r[21] == '_'
  {
    var n := "My Document (2024)";
    var r := Sanitize(pdfName);
    assert r[16] == KeyChar(n[12]) == '_';
    assert r[17] == KeyChar(n[13]) == '2';
    assert r[18] == KeyChar(n[14]) == '0';
    assert r[19] == KeyChar(n[15]) == '2';
    assert r[20] == KeyChar(n[16]) == '4';
    assert r[21] == KeyChar(n[17]) == '_';
  }

  /** A string spelled p, d, f, _, t, e, s, t is "pdf_test". This and the
      next lemma compare with the literal away from the definition of
      `Sanitize`, which keeps the comparison cheap. */
  lemma SpelledTestKey(r: string)
    requires |r| == 8
    requires r[0] == 'p' && r[1] == 'd' && r[2] == 'f' && r[3] == '_' && r[4] == 't' && r[5] == 'e' && r[6] == 's' && r[7] == 't'
    ensures r == "pdf_test"
  {
  }

  /** A string spelled out character by character as "pdf_my_document__2024_" is that string. */
  lemma SpelledMyDocumentKey(r: string)
    requires |r| == 22
    requires r[0] == 'p' && r[1] == 'd' && r[2] == 'f' && r[3] == '_' && r[4] == 'm' && r[5] == 'y' && r[6] == '_' && r[7] == 'd' && r[8] == 'o' && r[9] == 'c' && r[10] == 'u' && r[11] == 'm' && r[12] == 'e' && r[13] == 'n' && r[14] == 't' && r[15] == '_' && r[16] == '_' && r[17] == '2' && r[18] == '0' && r[19] == '2' && r[20] == '4' && r[21] == '_'
    ensures r == "pdf_my_document__2024_"
  {
  }

  /** `os.path.basename`: what follows the last '/'. */
  function Basename(path: string): string {
    if path == [] || path[|path| - 1] == '/' then []
    else Basename(path[..|path| - 1]) + [path[|path| - 1]]
  }

  /** The basename is the longest suffix of the path with no '/' in it: a
      suffix, free of '/', and preceded by '/' when it is not the whole
      path. */
  lemma {:induction false} BasenameSuffix(path: string)
    ensures var r := Basename(path);
      && |r| <= |path| && r == path[|path| - |r|..]
      && (forall k :: 0 <= k < |r| ==> r[k] != '/')
      && (|r| < |path| ==> path[|path| - |r| - 1] == '/')
    decreases |path|
  {
    if path != [] && path[|path| - 1] != '/' {
      var init := path[..|path| - 1];
      BasenameSuffix(init);
      var r := Basename(path);
      var q := Basename(init);
      assert r == q + [path[|path| - 1]];
      assert q == init[|init| - |q|..];
      assert r == path[|path| - |r|..];
    }
  }

  // ---------------------------------------------------------------------------
  // Reranking, context and sources

  /** The passage texts handed to the ranker; a passage's id is its position. */
  function Passages(docs: seq<Doc>): (r: seq<string>)
    ensures |r| == |docs|
    ensures forall k :: 0 <= k < |docs| ==> r[k] == docs[k].content
  {
    seq(|docs|, k requires 0 <= k < |docs| => docs[k].content)
  }

  /** `_rerank_documents`: the documents at the first three ids the ranker
      lists, in the ranker's order. An id past the end raises IndexError. */
  function Rerank(question: string, docs: seq<Doc>, ranker: (string, seq<string>) -> Call<seq<nat>>): (r: Call<seq<Doc>>)
    ensures var reply := ranker(question, Passages(docs));
      && (reply.Fails? ==> r == Fails(reply.cause))
      && (reply.Returns? ==>
            var top := Take(reply.value, 3);
            && (r.Returns? <==> forall k :: 0 <= k < |top| ==> top[k] < |docs|)
            && (r.Fails? ==> r.cause == IndexOutOfRange)
            && (r.Returns? ==> (|r.value| == |top| <= 3 &&
                  forall k :: 0 <= k < |top| ==> r.value[k] == docs[top[k]])))
  {
    match ranker(question, Passages(docs))
    case Fails(e) => Fails(e)
    case Returns(ids) =>
      var top := Take(ids, 3);
      if forall k :: 0 <= k < |top| ==> top[k] < |docs| then
        Returns(seq(|top|, k requires 0 <= k < |top| => docs[top[k]]))
      else Fails(IndexOutOfRange)
  }

  /** A ranker that ranks every passage once keeps min(3, n) documents, all
      distinct positions of the retrieved list, so never more than retrieved. */
  lemma {:induction false} RerankKeepsThree(question: string, docs: seq<Doc>, ranker: (string, seq<string>) -> Call<seq<nat>>)
    requires ranker(question, Passages(docs)).Returns?
    requires var ids := ranker(question, Passages(docs)).value;
      |ids| == |docs| && (forall k :: 0 <= k < |ids| ==> ids[k] < |docs|) &&
      (forall j, k :: 0 <= j < k < |ids| ==> ids[j] != ids[k])
    ensures Rerank(question, docs, ranker).Returns?
    ensures |Rerank(question, docs, ranker).value| == Min(3, |docs|)
  {
    var ids := ranker(question, Passages(docs)).value;
    var top := Take(ids, 3);
    assert forall k :: 0 <= k < |top| ==> top[k] == ids[k];
  }

  const Separator := "\n\n"

  /** `"\n\n".join(texts)`. */
  function Join(texts: seq<string>): (r: string)
    ensures texts == [] ==> r == ""
    ensures |texts| == 1 ==> r == texts[0]
  {
    if texts == [] then ""
    else if |texts| == 1 then texts[0]
    else Join(texts[..|texts| - 1]) + Separator + texts[|texts| - 1]
  }

  /** Joining is associative in the way the separators demand: two joined
      runs with one separator between them are the join of the whole. */
  lemma {:induction false} JoinAppend(a: seq<string>, b: seq<string>)
    requires a != [] && b != []
    ensures Join(a + b) == Join(a) + Separator + Join(b)
    decreases |b|
  {
    if |b| == 1 {
      assert (a + b)[..|a + b| - 1] == a;
    } else {
      var b' := b[..|b| - 1];
      assert (a + b)[..|a + b| - 1] == a + b';
      JoinAppend(a, b');
    }
  }

  /** The context block: the kept chunks' texts separated by a blank line. */
  function Context(top: seq<Doc>): string {
    Join(Passages(top))
  }

  /** `doc.page_content[:200] + "..."`. */
  function Preview(content: string): (r: string)
    ensures |r| == Min(|content|, 200) + 3
    ensures r[..|r| - 3] == content[..|r| - 3] && r[|r| - 3..] == "..."
  {
    Take(content, 200) + "..."
  }

  /** One source per kept document, in rank order: its preview and its
      metadata unchanged. */
  function Sources(top: seq<Doc>): (r: seq<Source>)
    ensures |r| == |top|
    ensures forall k :: 0 <= k < |top| ==>
      r[k].metadata == top[k].metadata && r[k].content == Preview(top[k].content)
  {
    seq(|top|, k requires 0 <= k < |top| => Source(Preview(top[k].content), top[k].metadata))
  }

  function QueryError(cause: string): RagResponse {
    RagResponse(ErrorPrefix + cause, [])
  }

  // ---------------------------------------------------------------------------
  // Loading: the effect on the vector database

  /** What one `load_pdf(path)` does to the collections, where `key` is the
      collection name it derives from the path (`Sanitize(Basename(path))`):
      a new collection is created only when `key` is absent, and is filled
      with the PDF's chunks; a failure after creation leaves it created and
      empty. The call succeeds when the collection exists (or was created and
      filled) and a vector store could be opened on it. */
  function Ingest(collections: map<string, seq<Doc>>, key: string, path: string, sv: LoadServices): (r: LoadOutcome)
    ensures forall k :: k in collections ==> k in r.collections && r.collections[k] == collections[k]
    ensures r.collections.Keys <= collections.Keys + {key}
    ensures key in collections ==> r.collections == collections
    ensures r.ok <==> sv.listing.Returns? &&
                      (key in collections || (sv.create(key).Returns? && sv.ingest(path).Returns?)) &&
                      sv.attach(key).Returns?
    ensures r.ok ==> key in r.collections
    ensures key !in collections && sv.listing.Returns? && sv.create(key).Returns? ==>
      key in r.collections &&
      r.collections[key] == (if sv.ingest(path).Returns? then sv.ingest(path).value else [])
    ensures key !in r.collections ==> r.collections == collections
  {
    if sv.listing.Fails? then LoadOutcome(false, collections)
    else if key in collections then LoadOutcome(sv.attach(key).Returns?, collections)
    else if sv.create(key).Fails? then LoadOutcome(false, collections)
    else
      var filled := collections[key := if sv.ingest(path).Returns? then sv.ingest(path).value else []];
      LoadOutcome(sv.ingest(path).Returns? && sv.attach(key).Returns?, filled)
  }

  /** `Ingest` case by case, in the order the loading code takes them. */
  lemma IngestSteps(collections: map<string, seq<Doc>>, key: string, path: string, sv: LoadServices)
    ensures sv.listing.Fails? ==> Ingest(collections, key, path, sv) == LoadOutcome(false, collections)
    ensures sv.listing.Returns? && key in collections ==>
      Ingest(collections, key, path, sv) == LoadOutcome(sv.attach(key).Returns?, collections)
    ensures sv.listing.Returns? && key !in collections && sv.create(key).Fails? ==>
      Ingest(collections, key, path, sv) == LoadOutcome(false, collections)
    ensures sv.listing.Returns? && key !in collections && sv.create(key).Returns? && sv.ingest(path).Fails? ==>
      Ingest(collections, key, path, sv) == LoadOutcome(false, collections[key := []])
    ensures sv.listing.Returns? && key !in collections && sv.create(key).Returns? && sv.ingest(path).Returns? ==>
      Ingest(collections, key, path, sv) ==
        LoadOutcome(sv.attach(key).Returns?, collections[key := sv.ingest(path).value])
  {
  }

  /** Loading the same file twice stores its chunks once: after a successful
      load, a second load of any path with the same basename leaves the
      collections unchanged, whatever the services do. */
  lemma LoadTwice(collections: map<string, seq<Doc>>, path: string, again: string, sv: LoadServices, sv': LoadServices)
    requires Ingest(collections, Sanitize(Basename(path)), path, sv).ok
    requires Basename(again) == Basename(path)
    ensures var first := Ingest(collections, Sanitize(Basename(path)), path, sv).collections;
      Ingest(first, Sanitize(Basename(again)), again, sv').collections == first
  {
  }

  // ---------------------------------------------------------------------------
  // The tool

  class RagTool {
    /** The vector database's collections, by name, with their chunks. */
    var collections: map<string, seq<Doc>>
    /** The collection the open vector store reads, if any (`vectorstore`). */
    var vectorstore: Option<string>
    var currentPdfName: Option<string>
    var currentCollectionName: Option<string>

    /** An open vector store reads the collection named after the current
        PDF, which is also the current collection name, and exists in the
        database. With no store open the two names may be stale: the front
        end's "Clear PDF" drops the store and the PDF name but keeps the
        collection name. */
    ghost predicate Valid()
      reads this
    {
      vectorstore.Some? ==>
        && currentPdfName.Some?
        && vectorstore == Some(Sanitize(currentPdfName.value))
        && vectorstore == currentCollectionName
        && vectorstore.value in collections
    }

    /** A tool over a database that already holds `existing`. */
    constructor (existing: map<string, seq<Doc>>)
      ensures Valid()
      ensures collections == existing
      ensures vectorstore == None && currentPdfName == None && currentCollectionName == None
    {
      collections := existing;
      vectorstore := None;
      currentPdfName := None;
      currentCollectionName := None;
    }

    /** `load_pdf`: ingest the file unless its collection exists, then make
        it current. Any failure returns false and leaves the current fields
        as they were (a collection created before the failure stays). */
    method LoadPdf(path: string, sv: LoadServices) returns (ok: bool)
      requires Valid()
      modifies this
      ensures Valid()
      ensures var o := Ingest(old(collections), Sanitize(Basename(path)), path, sv); ok == o.ok && collections == o.collections
      ensures ok ==> currentPdfName == Some(Basename(path)) &&
                     currentCollectionName == Some(Sanitize(Basename(path))) &&
                     vectorstore == currentCollectionName
      ensures !ok ==> vectorstore == old(vectorstore) &&
                      currentPdfName == old(currentPdfName) &&
                      currentCollectionName == old(currentCollectionName)
    {
      var pdfName := Basename(path);
      var collectionName := Sanitize(pdfName);
      ok := Open(pdfName, collectionName, path, sv);
    }

    /** The body of `load_pdf` once the two names are derived. */
    method Open(pdfName: string, collectionName: string, path: string, sv: LoadServices) returns (ok: bool)
      requires Valid() && collectionName == Sanitize(pdfName)
      modifies this
      ensures Valid()
      ensures var o := Ingest(old(collections), collectionName, path, sv); ok == o.ok && collections == o.collections
      ensures ok ==> currentPdfName == Some(pdfName) &&
                     currentCollectionName == Some(collectionName) &&
                     vectorstore == currentCollectionName
      ensures !ok ==> vectorstore == old(vectorstore) &&
                      currentPdfName == old(currentPdfName) &&
                      currentCollectionName == old(currentCollectionName)
    {
      IngestSteps(collections, collectionName, path, sv);
      if sv.listing.Fails? {
        return false;
      }
      if collectionName !in collections {
        if sv.create(collectionName).Fails? {
          return false;
        }
        collections := collections[collectionName := []];
        match sv.ingest(path)
        case Fails(_) =>
          return false;
        case Returns(chunks) =>
          collections := collections[collectionName := chunks];
      }
      if sv.attach(collectionName).Fails? {
        return false;
      }
      vectorstore := Some(collectionName);
      currentPdfName := Some(pdfName);
      currentCollectionName := Some(collectionName);
      return true;
    }

    /** What the front end's "Clear PDF" button does to the tool: it closes
        the store and forgets the PDF name, and leaves the collection name
        and the collections as they are. */
    method ClearPdf()
      requires Valid()
      modifies this
      ensures Valid()
      ensures vectorstore == None && currentPdfName == None
      ensures currentCollectionName == old(currentCollectionName) && collections == old(collections)
    {
      vectorstore := None;
      currentPdfName := None;
    }

    /** `switch_to_pdf`: make an existing collection current. True exactly
        when the sanitised name exists; otherwise nothing changes. It catches
        nothing: a failure of the database escapes as `Fails`. */
    method SwitchToPdf(pdfName: string, listing: Call<()>, attach: string -> Call<()>) returns (r: Call<bool>)
      requires Valid()
      modifies this
      ensures Valid() && collections == old(collections)
      ensures var key := Sanitize(pdfName);
        && (listing.Fails? ==> r == Fails(listing.cause))
        && (listing.Returns? && key !in collections ==> r == Returns(false))
        && (listing.Returns? && key in collections ==>
              r == (if attach(key).Returns? then Returns(true) else Fails(attach(key).cause)))
      ensures r == Returns(true) ==>
        currentPdfName == Some(pdfName) && currentCollectionName == Some(Sanitize(pdfName)) &&
        vectorstore == currentCollectionName
      ensures r != Returns(true) ==>
        vectorstore == old(vectorstore) && currentPdfName == old(currentPdfName) &&
        currentCollectionName == old(currentCollectionName)
    {
      var collectionName := Sanitize(pdfName);
      if listing.Fails? {
        return Fails(listing.cause);
      }
      if collectionName in collections {
        if attach(collectionName).Fails? {
          return Fails(attach(collectionName).cause);
        }
        vectorstore := Some(collectionName);
        currentPdfName := Some(pdfName);
        currentCollectionName := Some(collectionName);
        return Returns(true);
      }
      return Returns(false);
    }
  }

  /** `query` of a tool whose open vector store is `store`: with none, the
      fixed "not loaded" answer and no service called; no retrieved chunk
      gives the fixed "no relevant information" answer; otherwise the answer
      generated from the three best chunks, cited in rank order. Any failure
      becomes "Error processing query: <cause>" with no sources. */
  function Query(store: Option<string>, question: string, history: seq<ChatMessage>, sv: QueryServices): (run: QueryRun)
    ensures store.None? ==> run == QueryRun(RagResponse(NoPdfLoaded, []), [])
    ensures store.Some? ==> |run.called| >= 1 && run.called[0] == Retrieve
    ensures run.response.sources != [] ==> run.called == [Retrieve, Rank, Generate]
    ensures |run.response.sources| <= 3
    ensures run.called == [] <==> store.None?
  {
    match store
    case None => QueryRun(RagResponse(NoPdfLoaded, []), [])
    case Some(collection) =>
      match sv.retriever(collection, question)
      case Fails(e) => QueryRun(QueryError(e), [Retrieve])
      case Returns(docs) =>
        if docs == [] then QueryRun(RagResponse(NoRelevantInfo, []), [Retrieve])
        else
          match Rerank(question, docs, sv.ranker)
          case Fails(e) => QueryRun(QueryError(e), [Retrieve, Rank])
          case Returns(top) =>
            var prompt := QaPrompt(Context(top), history, question);
            match sv.generator(prompt)
            case Fails(e) => QueryRun(QueryError(e), [Retrieve, Rank, Generate])
            case Returns(answer) => QueryRun(RagResponse(answer, Sources(top)), [Retrieve, Rank, Generate])
  }

  /** No retrieved chunk: the fixed answer, no sources, and neither the
      ranker nor the model is called. */
  lemma QueryNothingRetrieved(store: Option<string>, question: string, history: seq<ChatMessage>, sv: QueryServices)
    requires store.Some? && sv.retriever(store.value, question) == Returns([])
    ensures Query(store, question, history, sv) == QueryRun(RagResponse(NoRelevantInfo, []), [Retrieve])
  {
  }

  /** A successful query: the model is asked with the kept chunks' texts
      joined by blank lines, and the answer cites each kept chunk, in rank
      order, by its 200-character preview and its metadata. */
  lemma QueryAnswers(store: Option<string>, question: string, history: seq<ChatMessage>, sv: QueryServices,
                     docs: seq<Doc>, top: seq<Doc>, answer: string)
    requires store.Some? && sv.retriever(store.value, question) == Returns(docs) && docs != []
    requires Rerank(question, docs, sv.ranker) == Returns(top)
    requires sv.generator(QaPrompt(Join(Passages(top)), history, question)) == Returns(answer)
    ensures Query(store, question, history, sv).response == RagResponse(answer, Sources(top))
    ensures |top| <= 3
  {
  }

  /** A failing retrieval is caught: the answer is "Error processing
      query: " followed by the retriever's message, with no sources, and
      neither the ranker nor the model is called. */
  lemma QueryRetrieveFails(store: Option<string>, question: string, history: seq<ChatMessage>, sv: QueryServices)
    requires store.Some? && sv.retriever(store.value, question).Fails?
    ensures Query(store, question, history, sv) ==
      QueryRun(QueryError(sv.retriever(store.value, question).cause), [Retrieve])
    ensures Query(store, question, history, sv).response.answer ==
      ErrorPrefix + sv.retriever(store.value, question).cause
  {
  }

  /** A failing rerank (the ranker raising, or naming a passage that does
      not exist) is caught the same way, and the model is not called. */
  lemma QueryRerankFails(store: Option<string>, question: string, history: seq<ChatMessage>, sv: QueryServices,
                         docs: seq<Doc>, cause: string)
    requires store.Some? && sv.retriever(store.value, question) == Returns(docs) && docs != []
    requires Rerank(question, docs, sv.ranker) == Fails(cause)
    ensures Query(store, question, history, sv) == QueryRun(QueryError(cause), [Retrieve, Rank])
    ensures Query(store, question, history, sv).response.answer == ErrorPrefix + cause
  {
  }

  /** A failing answer model is caught the same way, after all three
      services were called. */
  lemma QueryGeneratorFails(store: Option<string>, question: string, history: seq<ChatMessage>, sv: QueryServices,
                            docs: seq<Doc>, top: seq<Doc>, cause: string)
    requires store.Some? && sv.retriever(store.value, question) == Returns(docs) && docs != []
    requires Rerank(question, docs, sv.ranker) == Returns(top)
    requires sv.generator(QaPrompt(Context(top), history, question)) == Fails(cause)
    ensures Query(store, question, history, sv) == QueryRun(QueryError(cause), [Retrieve, Rank, Generate])
    ensures Query(store, question, history, sv).response.answer == ErrorPrefix + cause
  {
  }
}
