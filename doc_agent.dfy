/**
 * The document specialist of src/lib/agents/DocAgent.ts: creating a report, and summarising a
 * document after checking, in order, the id, the document's existence and its owner, with the
 * sentence-picking summariser `generateSimpleSummary`.
 */
module DocAgent {
  import opened Common
  import opened Strings
  import opened Store
  import opened Responses
  import Tracker

  // ---------------------------------------------------------------------------
  // generateSimpleSummary: sentences

  /** The characters of the class `[.!?]`. */
  predicate IsTerminator(c: char)
  {
    c == '.' || c == '!' || c == '?'
  }

  predicate NoTerminator(s: string)
  {
    forall i | 0 <= i < |s| :: !IsTerminator(s[i])
  }

  /**
   * The pieces of `s` between terminators, one piece per terminator plus one. A run of
   * terminators yields empty pieces where `split(/[.!?]+/)` yields none; the blank filter that
   * follows removes them either way.
   */
  function Segments(s: string): (r: seq<string>)
    ensures |r| >= 1
    ensures forall i | 0 <= i < |r| :: NoTerminator(r[i])
  {
    if s == [] then [""]
    else if IsTerminator(s[0]) then [""] + Segments(s[1..])
    else
      var rest := Segments(s[1..]);
      assert NoTerminator([s[0]] + rest[0]) by {
        forall i | 0 <= i < |[s[0]] + rest[0]| ensures !IsTerminator(([s[0]] + rest[0])[i]) {
          if i > 0 {
            assert ([s[0]] + rest[0])[i] == rest[0][i - 1];
          }
        }
      }
      [[s[0]] + rest[0]] + rest[1..]
  }

  /** The number of terminator characters in `s`. */
  function Terminators(s: string): nat
  {
    if s == [] then 0 else (if IsTerminator(s[0]) then 1 else 0) + Terminators(s[1..])
  }

  /** `s` with its terminators removed. */
  function Stripped(s: string): string
  {
    if s == [] then "" else (if IsTerminator(s[0]) then "" else [s[0]]) + Stripped(s[1..])
  }

  /** The pieces laid end to end. */
  function Concat(parts: seq<string>): string
  {
    if parts == [] then "" else parts[0] + Concat(parts[1..])
  }

  /** There is one more piece than there are terminators. */
  lemma {:induction false} SegmentsCount(s: string)
    ensures |Segments(s)| == Terminators(s) + 1
  {
    if s != [] {
      SegmentsCount(s[1..]);
    }
  }

  /** Laid end to end, the pieces give back `s` without its terminators: splitting loses nothing else. */
  lemma {:induction false} SegmentsConcat(s: string)
    ensures Concat(Segments(s)) == Stripped(s)
  {
    if s != [] {
      SegmentsConcat(s[1..]);
      var rest := Segments(s[1..]);
      if IsTerminator(s[0]) {
        assert ([""] + rest)[1..] == rest;
      } else {
        var r := [[s[0]] + rest[0]] + rest[1..];
        assert r[1..] == rest[1..];
        assert Concat(rest) == rest[0] + Concat(rest[1..]);
        assert Concat(r) == [s[0]] + rest[0] + Concat(rest[1..]);
      }
    }
  }

  /** A string without terminators is one piece. */
  lemma {:induction false} SegmentsOfPlain(a: string)
    requires NoTerminator(a)
    ensures Segments(a) == [a]
  {
    if a != [] {
      SegmentsOfPlain(a[1..]);
      assert [a[0]] + a[1..] == a;
    }
  }

  /** Splitting at the first terminator. */
  lemma {:induction false} SegmentsAt(a: string, t: char, b: string)
    requires NoTerminator(a) && IsTerminator(t)
    ensures Segments(a + [t] + b) == [a] + Segments(b)
  {
    if a == [] {
      assert a + [t] + b == [t] + b;
      assert ([t] + b)[1..] == b;
    } else {
      assert (a + [t] + b)[0] == a[0];
      assert (a + [t] + b)[1..] == a[1..] + [t] + b;
      SegmentsAt(a[1..], t, b);
      assert [a[0]] + a[1..] == a;
    }
  }

  /** `filter(s => s.trim().length > 0)`. */
  function NonBlank(parts: seq<string>): (r: seq<string>)
    ensures |r| <= |parts|
  {
    if parts == [] then [] else (if Trim(parts[0]) != [] then [parts[0]] else []) + NonBlank(parts[1..])
  }

  /** The filter keeps exactly the pieces that are not blank. */
  lemma {:induction false} NonBlankKeeps(parts: seq<string>, x: string)
    ensures x in NonBlank(parts) <==> x in parts && Trim(x) != []
  {
    if parts != [] {
      NonBlankKeeps(parts[1..], x);
      var head := if Trim(parts[0]) != [] then [parts[0]] else [];
      assert NonBlank(parts) == head + NonBlank(parts[1..]);
      assert x in parts <==> x == parts[0] || x in parts[1..] by {
        assert parts == [parts[0]] + parts[1..];
      }
    }
  }

  /** `content.split(/[.!?]+/).filter(s => s.trim().length > 0)`. */
  function Sentences(content: string): (r: seq<string>)
    ensures forall x | x in r :: NoTerminator(x) && Trim(x) != []
  {
    var parts := Segments(content);
    assert forall x | x in NonBlank(parts) :: NoTerminator(x) && Trim(x) != [] by {
      forall x | x in NonBlank(parts) ensures NoTerminator(x) && Trim(x) != [] {
        NonBlankKeeps(parts, x);
        var i :| 0 <= i < |parts| && parts[i] == x;
      }
    }
    NonBlank(parts)
  }

  // ---------------------------------------------------------------------------
  // generateSimpleSummary: word count

  /** The number of maximal runs of space characters in `s` (counted at the last character of each run). */
  function SpaceRuns(s: string): nat
  {
    if s == [] then 0
    else (if IsSpace(s[0]) && (|s| == 1 || !IsSpace(s[1])) then 1 else 0) + SpaceRuns(s[1..])
  }

  /** `s.split(/\s+/).length`: one more than the number of runs of space characters. */
  function WordCount(s: string): (n: nat)
    ensures n >= 1
  {
    1 + SpaceRuns(s)
  }

  lemma {:induction false} SpaceRunsOfWord(w: string, rest: string)
    requires NoSpace(w) && w != []
    ensures SpaceRuns(w + rest) == SpaceRuns(rest)
  {
    if |w| == 1 {
      assert (w + rest)[1..] == rest;
    } else {
      assert (w + rest)[1..] == w[1..] + rest;
      assert (w + rest)[1] == w[1];
      SpaceRunsOfWord(w[1..], rest);
    }
  }

  /** Words joined by single spaces count as that many words. */
  lemma {:induction false} WordCountOfJoin(words: seq<string>)
    requires |words| >= 1
    requires forall i | 0 <= i < |words| :: words[i] != [] && NoSpace(words[i])
    ensures WordCount(Join(words, " ")) == |words|
  {
    if |words| == 1 {
      SpaceRunsOfWord(words[0], "");
      assert words[0] + "" == words[0];
    } else {
      WordCountOfJoin(words[1..]);
      var tail := Join(words[1..], " ");
      assert words[1] == words[1..][0];
      assert tail != [] && !IsSpace(tail[0]) by {
        if |words[1..]| == 1 {
          assert tail == words[1];
        } else {
          assert tail == words[1] + " " + Join(words[2..], " ");
        }
      }
      assert Join(words, " ") == words[0] + (" " + tail);
      SpaceRunsOfWord(words[0], " " + tail);
      assert (" " + tail)[1..] == tail;
    }
  }

  // ---------------------------------------------------------------------------
  // generateSimpleSummary

  /** The note closing a condensed summary. */
  function CondensedNote(words: nat): string
  {
    " (Summary: " + NatToString(words) + " words condensed)"
  }

  /**
   * `generateSimpleSummary`: content of at most three sentences is returned unchanged; longer
   * content becomes its first, middle (index n/2, rounded down) and last sentences, trimmed, each
   * closed by ". " and followed by the word count of the whole content.
   */
  function SimpleSummary(content: string): (r: string)
    ensures |Sentences(content)| <= 3 ==> r == content
    ensures |Sentences(content)| > 3 ==>
              var s := Sentences(content);
              r == Trim(s[0]) + ". " + Trim(s[|s| / 2]) + ". " + Trim(s[|s| - 1]) + "." + CondensedNote(WordCount(content))
  {
    var sentences := Sentences(content);
    var wordCount := WordCount(content);
    if |sentences| <= 3 then content
    else
      var first := Trim(sentences[0]);
      var middle := Trim(sentences[|sentences| / 2]);
      var last := Trim(sentences[|sentences| - 1]);
      first + ". " + middle + ". " + last + "." + CondensedNote(wordCount)
  }

  /** Trimming keeps a piece free of terminators. */
  lemma TrimmedPlain(x: string)
    requires NoTerminator(x)
    ensures NoTerminator(Trim(x))
  {
    var t := TrimStart(x);
    assert NoTerminator(t) by {
      forall i | 0 <= i < |t| ensures !IsTerminator(t[i]) { assert t[i] == x[|x| - |t| + i]; }
    }
    var r := TrimEnd(t);
    forall i | 0 <= i < |r| ensures !IsTerminator(r[i]) { assert r[i] == t[i]; }
  }

  /** A leading space keeps a piece free of terminators. */
  lemma SpacedPlain(x: string)
    requires NoTerminator(x)
    ensures NoTerminator(" " + x)
  {
    forall i | 1 <= i < |" " + x| ensures !IsTerminator((" " + x)[i]) { assert (" " + x)[i] == x[i - 1]; }
  }

  /** The closing note has no terminator: its only varying part is digits. */
  lemma NotePlain(words: nat)
    ensures NoTerminator(CondensedNote(words))
  {
    var digits := NatToString(words);
    var note := CondensedNote(words);
    forall i | 0 <= i < |note| ensures !IsTerminator(note[i]) {
      if 11 <= i < 11 + |digits| {
        assert note[i] == digits[i - 11];
      }
    }
  }

  /** Three terminator-free pieces each closed by ". " (the last by "."), then a fourth, split back into the four. */
  lemma {:induction false} FourPieces(a: string, b: string, c: string, d: string)
    requires NoTerminator(a) && NoTerminator(" " + b) && NoTerminator(" " + c) && NoTerminator(d)
    ensures Segments(a + ". " + b + ". " + c + "." + d) == [a, " " + b, " " + c, d]
  {
    var tail3 := (" " + c) + ['.'] + d;
    var tail2 := (" " + b) + ['.'] + tail3;
    assert ". " + c + "." + d == ['.'] + tail3;
    assert ". " + b + ". " + c + "." + d == ['.'] + tail2;
    assert a + ". " + b + ". " + c + "." + d == a + ['.'] + tail2;
    SegmentsAt(a, '.', tail2);
    SegmentsAt(" " + b, '.', tail3);
    SegmentsAt(" " + c, '.', d);
    SegmentsOfPlain(d);
  }

  /** Every sentence, trimmed, is free of terminators. */
  lemma SentencesPlain(content: string, x: string)
    requires x in Sentences(content)
    ensures NoTerminator(Trim(x))
  {
    NonBlankKeeps(Segments(content), x);
    var k :| 0 <= k < |Segments(content)| && Segments(content)[k] == x;
    TrimmedPlain(x);
  }

  /**
   * A condensed summary splits back into its three chosen sentences (the later two after the
   * space that follows each full stop) and the closing note: it is exactly four sentences.
   */
  lemma SummaryResplits(content: string)
    requires |Sentences(content)| > 3
    ensures var s := Sentences(content);
            Segments(SimpleSummary(content))
            == [Trim(s[0]), " " + Trim(s[|s| / 2]), " " + Trim(s[|s| - 1]), CondensedNote(WordCount(content))]
  {
    var s := Sentences(content);
    var a, b, c := Trim(s[0]), Trim(s[|s| / 2]), Trim(s[|s| - 1]);
    var note := CondensedNote(WordCount(content));
    SentencesPlain(content, s[0]);
    SentencesPlain(content, s[|s| / 2]);
    SentencesPlain(content, s[|s| - 1]);
    SpacedPlain(b);
    SpacedPlain(c);
    NotePlain(WordCount(content));
    FourPieces(a, b, c, note);
  }

  // ---------------------------------------------------------------------------
  // createReport

  const ReportRemark := " Document creation complete! Another masterpiece added to your collection."

  /** The confirmation for a new report: formal from formality 7 upwards, with the optional remark. */
  function ReportContent(title: string, formality: int, humour: int, roll: bool): (c: string)
    ensures var base := if Formal(formality)
                        then "I've taken the liberty of creating the document \"" + title + "\" for you, Sir/Madam."
                        else "Document \"" + title + "\" has been created successfully";
            && (c == base || c == base + ReportRemark)
            && (c != base <==> humour >= 6 && roll)
  {
    var base := if Formal(formality)
                then "I've taken the liberty of creating the document \"" + title + "\" for you, Sir/Madam."
                else "Document \"" + title + "\" has been created successfully";
    WithHumour(base, humour, roll, ReportRemark)
  }

  /**
   * `createReport`: title and content must both be given (truthy) before the store is touched;
   * the document is created under the fresh id `id` with type REPORT and no summary; a title or
   * content that is not text, or an id in use, is a store failure.
   */
  function CreateReport(rows: map<string, Document>, title: Option<Value>, content: Option<Value>, id: string,
                        userId: string, preferences: Option<Fields>, hour: int, roll: bool): Outcome<Document>
  {
    if !GivenOpt(title) || !GivenOpt(content) then
      Outcome(ErrorResponse("Document title and content are required"), rows)
    else if !title.value.Str? || !content.value.Str? || id in rows then
      Outcome(ErrorResponse("Failed to create document", Some(StoreFailure)), rows)
    else
      var document := Document(id, userId, title.value.s, content.value.s, "REPORT", None);
      Outcome(SuccessResponse(ReportContent(document.title, Formality(preferences), Humour(preferences), roll),
                              DocumentView, Some(DocumentRaw(document)),
                              Some(Personality(Some(SirGreeting(hour)), Some("Certainly, Sir/Madam."),
                                               Some("Document created successfully."), None))),
              rows[id := document])
  }

  /**
   * `createReport` writes one new document exactly when it succeeds, a REPORT holding the given
   * title and content; a missing title or content is refused first and nothing is written on error.
   */
  lemma CreateReportWritesOnlyOnSuccess(rows: map<string, Document>, title: Option<Value>, content: Option<Value>,
                                        id: string, userId: string, preferences: Option<Fields>, hour: int, roll: bool)
    ensures var o := CreateReport(rows, title, content, id, userId, preferences, hour, roll);
            && (o.response == ErrorResponse("Document title and content are required")
                <==> !GivenOpt(title) || !GivenOpt(content))
            && (o.response.status == Success <==>
                  GivenOpt(title) && GivenOpt(content) && title.value.Str? && content.value.Str? && id !in rows)
            && (o.response.status == Error ==> o.rows == rows)
            && (o.response.status == Success ==>
                  o.rows == rows[id := Document(id, userId, title.value.s, content.value.s, "REPORT", None)])
  {
  }

  /** The confirmation built step by step as `createReport` does. */
  method ReportMessage(title: string, formality: int, humour: int, roll: bool) returns (content: string)
    ensures content == ReportContent(title, formality, humour, roll)
  {
    content := "Document \"" + title + "\" has been created successfully";
    if formality >= 7 {
      content := "I've taken the liberty of creating the document \"" + title + "\" for you, Sir/Madam.";
    }
    ghost var base := content;
    if humour >= 6 && roll {
      content := content + ReportRemark;
    }
    assert content == WithHumour(base, humour, roll, ReportRemark);
  }

  /** The method form of `createReport`, against the document table. */
  method CreateReportIn(documents: Table<Document>, title: Option<Value>, content: Option<Value>, id: string,
                        userId: string, preferences: Option<Fields>, hour: int, roll: bool) returns (response: Response)
    modifies documents
    ensures Outcome(response, documents.rows)
            == CreateReport(old(documents.rows), title, content, id, userId, preferences, hour, roll)
  {
    if !GivenOpt(title) || !GivenOpt(content) {
      return ErrorResponse("Document title and content are required");
    }
    if !title.value.Str? || !content.value.Str? {
      return ErrorResponse("Failed to create document", Some(StoreFailure));
    }
    var document := Document(id, userId, title.value.s, content.value.s, "REPORT", None);
    var created := documents.Create(id, document);
    if !created {
      return ErrorResponse("Failed to create document", Some(StoreFailure));
    }
    var message := ReportMessage(title.value.s, Formality(preferences), Humour(preferences), roll);
    response := SuccessResponse(message, DocumentView, Some(DocumentRaw(document)),
                                Some(Personality(Some(SirGreeting(hour)), Some("Certainly, Sir/Madam."),
                                                 Some("Document created successfully."), None)));
  }

  // ---------------------------------------------------------------------------
  // summarizeDoc

  const SummaryRemark := " Summarization complete! I've distilled the essence into something more digestible."

  /** The confirmation for a summarised document: formal from formality 7 upwards, with the optional remark. */
  function SummarizedContent(title: string, formality: int, humour: int, roll: bool): (c: string)
    ensures var base := if Formal(formality)
                        then "I've generated a summary for the document \"" + title + "\", Sir/Madam."
                        else "Document \"" + title + "\" has been summarized successfully";
            && (c == base || c == base + SummaryRemark)
            && (c != base <==> humour >= 6 && roll)
  {
    var base := if Formal(formality)
                then "I've generated a summary for the document \"" + title + "\", Sir/Madam."
                else "Document \"" + title + "\" has been summarized successfully";
    WithHumour(base, humour, roll, SummaryRemark)
  }

  /**
   * `summarizeDoc`: checks, in order, that the id is given, that the document exists and that it
   * belongs to the user, each with its own error and no write; then stores the simple summary of
   * its content on it (a mistyped id is a store failure).
   */
  function SummarizeDoc(rows: map<string, Document>, documentId: Option<Value>, userId: string,
                        preferences: Option<Fields>, hour: int, roll: bool): Outcome<Document>
  {
    if !GivenOpt(documentId) then Outcome(ErrorResponse("Document ID is required"), rows)
    else if !documentId.value.Str? then Outcome(ErrorResponse("Failed to summarize document", Some(StoreFailure)), rows)
    else if documentId.value.s !in rows then Outcome(ErrorResponse("Document not found"), rows)
    else if rows[documentId.value.s].userId != userId then
      Outcome(ErrorResponse("Unauthorized to access this document"), rows)
    else
      var document := rows[documentId.value.s];
      var summary := SimpleSummary(document.content);
      var updated := document.(summary := Some(summary));
      Outcome(SuccessResponse(SummarizedContent(document.title, Formality(preferences), Humour(preferences), roll),
                              DocumentView, Some(DocumentSummaryRaw(updated, summary)),
                              Some(Personality(Some(SirGreeting(hour)), Some("Certainly, Sir/Madam."),
                                               Some("Document summarized successfully."), None))),
              rows[documentId.value.s := updated])
  }

  /**
   * The checks of `summarizeDoc` come in order, each error excluding the later ones; only a
   * successful summary writes, and it changes only the summary of that one document, which is
   * also what the response carries.
   */
  lemma SummarizeChecksInOrder(rows: map<string, Document>, documentId: Option<Value>, userId: string,
                               preferences: Option<Fields>, hour: int, roll: bool)
    ensures var o := SummarizeDoc(rows, documentId, userId, preferences, hour, roll);
            && (o.response == ErrorResponse("Document ID is required") <==> !GivenOpt(documentId))
            && (o.response == ErrorResponse("Document not found") <==>
                  GivenOpt(documentId) && documentId.value.Str? && documentId.value.s !in rows)
            && (o.response == ErrorResponse("Unauthorized to access this document") <==>
                  GivenOpt(documentId) && documentId.value.Str? && documentId.value.s in rows
                  && rows[documentId.value.s].userId != userId)
            && (o.response.status == Success <==>
                  GivenOpt(documentId) && documentId.value.Str? && documentId.value.s in rows
                  && rows[documentId.value.s].userId == userId)
            && (o.response.status == Error ==> o.rows == rows)
            && (o.response.status == Success ==>
                  var d := rows[documentId.value.s];
                  && o.rows == rows[documentId.value.s := d.(summary := Some(SimpleSummary(d.content)))]
                  && o.response.raw == Some(DocumentSummaryRaw(o.rows[documentId.value.s], SimpleSummary(d.content))))
  {
  }

  /** The confirmation built step by step as `summarizeDoc` does. */
  method SummarizedMessage(title: string, formality: int, humour: int, roll: bool) returns (content: string)
    ensures content == SummarizedContent(title, formality, humour, roll)
  {
    content := "Document \"" + title + "\" has been summarized successfully";
    if formality >= 7 {
      content := "I've generated a summary for the document \"" + title + "\", Sir/Madam.";
    }
    ghost var base := content;
    if humour >= 6 && roll {
      content := content + SummaryRemark;
    }
    assert content == WithHumour(base, humour, roll, SummaryRemark);
  }

  /** The method form of `summarizeDoc`, against the document table. */
  method SummarizeDocIn(documents: Table<Document>, documentId: Option<Value>, userId: string,
                        preferences: Option<Fields>, hour: int, roll: bool) returns (response: Response)
    modifies documents
    ensures Outcome(response, documents.rows)
            == SummarizeDoc(old(documents.rows), documentId, userId, preferences, hour, roll)
  {
    if !GivenOpt(documentId) {
      return ErrorResponse("Document ID is required");
    }
    if !documentId.value.Str? {
      return ErrorResponse("Failed to summarize document", Some(StoreFailure));
    }
    var id := documentId.value.s;
    if id !in documents.rows {
      return ErrorResponse("Document not found");
    }
    var document := documents.rows[id];
    if document.userId != userId {
      return ErrorResponse("Unauthorized to access this document");
    }
    var summary := SimpleSummary(document.content);
    var updated := document.(summary := Some(summary));
    var ok := documents.Update(id, updated);
    var message := SummarizedMessage(document.title, Formality(preferences), Humour(preferences), roll);
    response := SuccessResponse(message, DocumentView, Some(DocumentSummaryRaw(updated, summary)),
                                Some(Personality(Some(SirGreeting(hour)), Some("Certainly, Sir/Madam."),
                                                 Some("Document summarized successfully."), None)));
  }

  // ---------------------------------------------------------------------------
  // execute

  /** The switch of `execute`: both creation intents to `createReport`, any unknown intent to an error. */
  function Dispatch(rows: map<string, Document>, command: Command, userId: string, newId: string,
                    preferences: Option<Fields>, hour: int, roll: bool): Outcome<Document>
  {
    match command.intent
    case Some("create_document") =>
      CreateReport(rows, Param(command, "title"), Param(command, "content"), newId, userId, preferences, hour, roll)
    case Some("create_report") =>
      CreateReport(rows, Param(command, "title"), Param(command, "content"), newId, userId, preferences, hour, roll)
    case Some("summarize_document") =>
      SummarizeDoc(rows, Param(command, "documentId"), userId, preferences, hour, roll)
    case _ => Outcome(ErrorResponse("Unknown document command"), rows)
  }

  /** `create_document` and `create_report` are the same operation; an unknown intent writes nothing. */
  lemma CreationIntentsAgree(rows: map<string, Document>, command: Command, userId: string, newId: string,
                             preferences: Option<Fields>, hour: int, roll: bool)
    ensures Dispatch(rows, command.(intent := Some("create_document")), userId, newId, preferences, hour, roll)
            == Dispatch(rows, command.(intent := Some("create_report")), userId, newId, preferences, hour, roll)
    ensures command.intent !in {Some("create_document"), Some("create_report"), Some("summarize_document")} ==>
              Dispatch(rows, command, userId, newId, preferences, hour, roll)
              == Outcome(ErrorResponse("Unknown document command"), rows)
  {
  }

  /**
   * `execute`: logs and starts the record, runs the operation the intent names, and records the
   * response as COMPLETED, even when the response is an error.
   */
  method Execute(log: Tracker.ExecutionLog, documents: Table<Document>, id: string, command: Command,
                 userId: string, newId: string, preferences: Option<Fields>, hour: int, roll: bool, now: int)
    returns (r: Result<Response>)
    modifies log, documents
    ensures r.Ok? <==> id !in old(log.records)
    ensures r.Ok? ==> Outcome(r.value, documents.rows)
                      == Dispatch(old(documents.rows), command, userId, newId, preferences, hour, roll)
    ensures r.Ok? ==> log.records == old(log.records)[id := Tracker.CompletedRecord(id, Tracker.DOC, userId, command,
                                                                                    Tracker.ResponsePayload(r.value), now)]
    ensures r.Err? ==> log.records == old(log.records) && documents.rows == old(documents.rows)
    ensures old(log.Valid()) ==> log.Valid()
  {
    var logged := log.LogExecution(id, Tracker.DOC, userId, command.text, command.intent, command.parameters, now);
    if logged.Err? {
      return Err(logged.message);
    }
    log.StartExecution(id, now);
    var response: Response;
    match command.intent {
      case Some("create_document") =>
        response := CreateReportIn(documents, Param(command, "title"), Param(command, "content"), newId, userId,
                                   preferences, hour, roll);
      case Some("create_report") =>
        response := CreateReportIn(documents, Param(command, "title"), Param(command, "content"), newId, userId,
                                   preferences, hour, roll);
      case Some("summarize_document") =>
        response := SummarizeDocIn(documents, Param(command, "documentId"), userId, preferences, hour, roll);
      case _ =>
        response := ErrorResponse("Unknown document command");
    }
    log.UpdateExecution(id, Tracker.COMPLETED, Some(Tracker.ResponsePayload(response)), None, now);
    Tracker.LifecycleTable(old(log.records), id,
                           Tracker.Pending(id, Tracker.DOC, userId, command.text, command.intent, command.parameters, now),
                           now, Tracker.COMPLETED, Some(Tracker.ResponsePayload(response)), None, now);
    r := Ok(response);
  }
}
