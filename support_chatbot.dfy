/** The support assistant: a knowledge base of site pages kept in the
    embedding store and rebuilt from the sitemap, a 24-hour freshness test,
    retrieval of the context sent with each question, and the conversation
    turns the assistant stores for later retrieval ("self-training").
    The embedding endpoint, the chat endpoint, the sitemap fetch and the
    clock are parameters. */
module SupportChatbot {
  import opened Wrappers
  import opened Seqs
  import opened Text
  import opened VectorStore

  datatype Role = User | Assistant

  datatype Message = Message(id: string, role: Role, content: string, timestamp: string)

  datatype Page = Page(url: string, title: string, content: string)

  const Greeting := "Hi! I'm your TripWhiz Support assistant. I can help you with flight searches, price tracking, VPN market switching, and any questions about our travel tools. What can I help you with today?"

  const Apology := "I apologize, but I'm experiencing some technical difficulties. Please try again in a moment, or feel free to explore the TripWhiz features directly."

  /** Milliseconds in an hour, `1000 * 60 * 60`. */
  const HourMs := 3600000

  // ---------------------------------------------------------------------
  // Freshness

  /** `(Date.now() - lastUpdate) / (1000 * 60 * 60)`. */
  function HoursSince(lastMs: int, nowMs: int): real
  {
    (nowMs - lastMs) as real / HourMs as real
  }

  /** The test that lets `initializeKnowledgeBase` skip the rebuild. */
  predicate IsFresh(totalDocuments: nat, lastUpdate: Option<int>, nowMs: int)
  {
    totalDocuments > 0 && lastUpdate.Some? && HoursSince(lastUpdate.value, nowMs) < 24.0
  }

  /** The rebuild is skipped exactly when the store holds something, it was
      built before, and less than 24 hours (86 400 000 ms) have passed. */
  lemma FreshIff(totalDocuments: nat, lastUpdate: Option<int>, nowMs: int)
    ensures IsFresh(totalDocuments, lastUpdate, nowMs)
      <==> totalDocuments > 0 && lastUpdate.Some? && nowMs - lastUpdate.value < 86400000
  {
    if lastUpdate.Some? {
      var x := (nowMs - lastUpdate.value) as real;
      assert x / 3600000.0 < 24.0 <==> x < 86400000.0;
    }
  }

  // ---------------------------------------------------------------------
  // Rebuilding the knowledge base

  predicate IsConversation(d: Document)
  {
    d.metadata.docType == Some("conversation")
  }

  /** The text sent to the embedding endpoint for a page. */
  function PageText(p: Page): string
  {
    p.title + ": " + p.content
  }

  function PageDoc(p: Page, embedding: seq<real>): Document
  {
    Document(p.url, embedding, Metadata(Some(p.url), Some(p.title), p.content, None, Some("page")))
  }

  predicate Embeds(p: Page, embed: string -> Option<seq<real>>)
  {
    embed(PageText(p)).Some?
  }

  ghost predicate DistinctUrls(pages: seq<Page>)
  {
    forall i, j :: 0 <= i < j < |pages| ==> pages[i].url != pages[j].url
  }

  /** The documents the page loop adds, in order: one per page whose
      embedding succeeds. */
  function PageDocs(pages: seq<Page>, embed: string -> Option<seq<real>>): seq<Document>
  {
    if pages == [] then []
    else
      var p := pages[|pages| - 1];
      PageDocs(pages[..|pages| - 1], embed) + (if Embeds(p, embed) then [PageDoc(p, embed(PageText(p)).value)] else [])
  }

  /** `d` is the document of a page of `pages` whose embedding succeeded. */
  ghost predicate FromEmbeddedPage(d: Document, pages: seq<Page>, embed: string -> Option<seq<real>>)
  {
    exists j :: 0 <= j < |pages| && Embeds(pages[j], embed) && d == PageDoc(pages[j], embed(PageText(pages[j])).value)
  }

  /** Every document the page loop adds comes from a page whose embedding
      succeeded. */
  lemma {:induction false} PageDocsSound(pages: seq<Page>, embed: string -> Option<seq<real>>)
    ensures |PageDocs(pages, embed)| <= |pages|
    ensures forall i :: 0 <= i < |PageDocs(pages, embed)| ==> FromEmbeddedPage(PageDocs(pages, embed)[i], pages, embed)
  {
    if pages != [] {
      var init := pages[..|pages| - 1];
      var prefix := PageDocs(init, embed);
      var r := PageDocs(pages, embed);
      PageDocsSound(init, embed);
      forall i | 0 <= i < |r| ensures FromEmbeddedPage(r[i], pages, embed) {
        if i < |prefix| {
          assert FromEmbeddedPage(prefix[i], init, embed);
          var j :| 0 <= j < |init| && Embeds(init[j], embed) && prefix[i] == PageDoc(init[j], embed(PageText(init[j])).value);
          assert init[j] == pages[j] && r[i] == prefix[i];
        } else {
          var j := |pages| - 1;
          assert Embeds(pages[j], embed) && r[i] == PageDoc(pages[j], embed(PageText(pages[j])).value);
        }
      }
    }
  }

  /** Every page whose embedding succeeds gives a document; a page whose
      embedding fails is skipped and the later ones are still indexed. */
  lemma {:induction false} PageDocsComplete(pages: seq<Page>, embed: string -> Option<seq<real>>)
    ensures forall j :: 0 <= j < |pages| && Embeds(pages[j], embed) ==>
      PageDoc(pages[j], embed(PageText(pages[j])).value) in PageDocs(pages, embed)
  {
    if pages != [] {
      var init := pages[..|pages| - 1];
      PageDocsComplete(init, embed);
      assert forall j :: 0 <= j < |init| ==> init[j] == pages[j];
    }
  }

  /** Pages with distinct URLs give documents with distinct ids. */
  lemma {:induction false} PageDocsDistinct(pages: seq<Page>, embed: string -> Option<seq<real>>)
    requires DistinctUrls(pages)
    ensures DistinctIds(PageDocs(pages, embed))
  {
    if pages != [] {
      var init := pages[..|pages| - 1];
      var p := pages[|pages| - 1];
      var prefix := PageDocs(init, embed);
      assert DistinctUrls(init) by {
        forall i, j | 0 <= i < j < |init| ensures init[i].url != init[j].url {
          assert init[i] == pages[i] && init[j] == pages[j];
        }
      }
      PageDocsDistinct(init, embed);
      PageDocsSound(init, embed);
      if Embeds(p, embed) {
        forall i | 0 <= i < |prefix| ensures prefix[i].id != p.url {
          assert FromEmbeddedPage(prefix[i], init, embed);
          var j :| 0 <= j < |init| && Embeds(init[j], embed) && prefix[i] == PageDoc(init[j], embed(PageText(init[j])).value);
          assert init[j] == pages[j];
        }
      }
    }
  }

  lemma PageDocsStep(pages: seq<Page>, i: nat, embed: string -> Option<seq<real>>)
    requires i < |pages|
    ensures PageDocs(pages[..i + 1], embed)
      == PageDocs(pages[..i], embed) + (if Embeds(pages[i], embed) then [PageDoc(pages[i], embed(PageText(pages[i])).value)] else [])
  {
    assert pages[..i + 1][..i] == pages[..i];
  }

  /** The store `refreshKnowledgeBase` leaves behind once the sitemap is
      fetched: the conversation documents re-added, then the page documents. */
  function Rebuild(docs: seq<Document>, pages: seq<Page>, embed: string -> Option<seq<real>>, now: string): seq<Document>
  {
    UpsertAll(UpsertAll([], Filter(docs, IsConversation), now), PageDocs(pages, embed), now)
  }

  /** Nothing but conversations and pages survives a rebuild. */
  lemma RebuildOnly(docs: seq<Document>, pages: seq<Page>, embed: string -> Option<seq<real>>, now: string, x: Document)
    requires x in Rebuild(docs, pages, embed, now)
    ensures || (exists c :: c in docs && IsConversation(c) && x == Stamp(c, now))
            || (exists j :: 0 <= j < |pages| && Embeds(pages[j], embed)
                  && x == Stamp(PageDoc(pages[j], embed(PageText(pages[j])).value), now))
  {
    var convs := Filter(docs, IsConversation);
    FilterFacts(docs, IsConversation);
    var pageDocs := PageDocs(pages, embed);
    PageDocsSound(pages, embed);
    UpsertAllOnly(UpsertAll([], convs, now), pageDocs, now, x);
    if x in UpsertAll([], convs, now) {
      UpsertAllOnly([], convs, now, x);
      var j :| 0 <= j < |convs| && x == Stamp(convs[j], now);
      assert convs[j] in docs && IsConversation(convs[j]);
    } else {
      var i :| 0 <= i < |pageDocs| && x == Stamp(pageDocs[i], now);
      assert FromEmbeddedPage(pageDocs[i], pages, embed);
      var j :| 0 <= j < |pages| && Embeds(pages[j], embed) && pageDocs[i] == PageDoc(pages[j], embed(PageText(pages[j])).value);
    }
  }

  /** A conversation document survives a rebuild, with the same id,
      embedding and content, unless a page has its id as URL. */
  lemma RebuildKeepsConversations(docs: seq<Document>, pages: seq<Page>, embed: string -> Option<seq<real>>, now: string, c: Document)
    requires DistinctIds(docs)
    requires c in docs && IsConversation(c)
    requires forall j :: 0 <= j < |pages| && Embeds(pages[j], embed) ==> pages[j].url != c.id
    ensures Stamp(c, now) in Rebuild(docs, pages, embed, now)
  {
    var convs := Filter(docs, IsConversation);
    FilterKeepsDistinct(docs, IsConversation);
    FilterFacts(docs, IsConversation);
    var i :| 0 <= i < |convs| && convs[i] == c;
    UpsertAllHas([], convs, now, i);
    var pageDocs := PageDocs(pages, embed);
    PageDocsSound(pages, embed);
    forall k | 0 <= k < |pageDocs| ensures pageDocs[k].id != Stamp(c, now).id {
      assert FromEmbeddedPage(pageDocs[k], pages, embed);
      var j :| 0 <= j < |pages| && Embeds(pages[j], embed) && pageDocs[k] == PageDoc(pages[j], embed(PageText(pages[j])).value);
    }
    UpsertAllKeeps(UpsertAll([], convs, now), pageDocs, now, Stamp(c, now));
  }

  /** Every page whose embedding succeeds is in the rebuilt store as a `page`
      document whose id is its URL, when the sitemap's URLs are distinct. */
  lemma RebuildHasPages(docs: seq<Document>, pages: seq<Page>, embed: string -> Option<seq<real>>, now: string, j: nat)
    requires DistinctUrls(pages)
    requires j < |pages| && Embeds(pages[j], embed)
    ensures var d := Stamp(PageDoc(pages[j], embed(PageText(pages[j])).value), now);
      && d in Rebuild(docs, pages, embed, now)
      && d.id == pages[j].url
      && d.metadata.docType == Some("page")
      && d.metadata.url == Some(pages[j].url)
      && d.metadata.title == Some(pages[j].title)
      && d.metadata.content == pages[j].content
  {
    var pageDocs := PageDocs(pages, embed);
    PageDocsComplete(pages, embed);
    PageDocsDistinct(pages, embed);
    var d := PageDoc(pages[j], embed(PageText(pages[j])).value);
    var i :| 0 <= i < |pageDocs| && pageDocs[i] == d;
    UpsertAllHas(UpsertAll([], Filter(docs, IsConversation), now), pageDocs, now, i);
  }

  // ---------------------------------------------------------------------
  // Retrieval context

  /** Only highly relevant matches are used. */
  predicate Relevant(r: SimilarityResult)
  {
    r.similarity > 0.7
  }

  /** A page document with a non-empty title reads `"<title>: <content>"`;
      anything else reads as its content. */
  function Render(r: SimilarityResult): string
  {
    var m := r.document.metadata;
    if m.docType == Some("page") && m.title.Some? && m.title.value != "" then m.title.value + ": " + m.content
    else m.content
  }

  function ContextPieces(results: seq<SimilarityResult>): seq<string>
  {
    Map(Filter(results, Relevant), Render)
  }

  /** `filter(similarity > 0.7).map(render).join('\n\n')`. */
  function BuildContext(results: seq<SimilarityResult>): string
  {
    Join(ContextPieces(results), "\n\n")
  }

  /** The context for one question: the top three matches above 0.7, in rank
      order, one piece each; none at all when nothing is relevant. */
  lemma ContextOfSearch(docs: seq<Document>, score: Document -> real)
    ensures var results := Search(docs, score, DefaultTopK);
      var used := Filter(results, Relevant);
      && |used| <= 3
      && (forall i :: 0 <= i < |used| ==> used[i] in results && used[i].similarity > 0.7)
      && (forall i :: 0 <= i < |results| && results[i].similarity > 0.7 ==> results[i] in used)
      && (forall i, j :: 0 <= i < j < |used| ==> used[i].similarity >= used[j].similarity)
      && (forall i :: 0 <= i < |used| ==> used[i].similarity == score(used[i].document))
      && ContextPieces(results) == Map(used, Render)
      && (used == [] ==> BuildContext(results) == "")
  {
    var results := Search(docs, score, DefaultTopK);
    assert |results| <= 3
      && (forall i, j :: 0 <= i < j < |results| ==> results[i].similarity >= results[j].similarity)
      && (forall i :: 0 <= i < |results| ==> results[i].similarity == score(results[i].document))
    by {
      SearchRanking(docs, score, DefaultTopK);
    }
    UsedOrder(results);
    UsedScores(results, score);
    UsedMembers(results);
  }

  /** The relevant matches are exactly the matches above 0.7. */
  lemma UsedMembers(results: seq<SimilarityResult>)
    ensures var used := Filter(results, Relevant);
      && |used| <= |results|
      && (forall i :: 0 <= i < |used| ==> used[i] in results && used[i].similarity > 0.7)
      && (forall i :: 0 <= i < |results| && results[i].similarity > 0.7 ==> results[i] in used)
  {
    FilterFacts(results, Relevant);
  }

  /** The relevant matches keep the descending order of a ranking. */
  lemma UsedOrder(results: seq<SimilarityResult>)
    requires forall i, j :: 0 <= i < j < |results| ==> results[i].similarity >= results[j].similarity
    ensures var used := Filter(results, Relevant);
      forall i, j :: 0 <= i < j < |used| ==> used[i].similarity >= used[j].similarity
  {
    var used := Filter(results, Relevant);
    assert SortedBy(used, BySimilarity) by {
      assert SortedBy(results, BySimilarity);
      FilterSortedBy(results, Relevant, BySimilarity);
    }
    forall i, j | 0 <= i < j < |used| ensures used[i].similarity >= used[j].similarity {
      assert BySimilarity(used[i], used[j]);
    }
  }

  /** The relevant matches keep the scores a ranking gave them. */
  lemma UsedScores(results: seq<SimilarityResult>, score: Document -> real)
    requires forall i :: 0 <= i < |results| ==> results[i].similarity == score(results[i].document)
    ensures var used := Filter(results, Relevant);
      forall i :: 0 <= i < |used| ==> used[i].similarity == score(used[i].document)
  {
    var used := Filter(results, Relevant);
    FilterFacts(results, Relevant);
    forall i | 0 <= i < |used| ensures used[i].similarity == score(used[i].document) {
      assert used[i] in results;
      var k :| 0 <= k < |results| && results[k] == used[i];
    }
  }

  /** The context is empty when the query has no embedding or the knowledge
      base is not ready, and otherwise is built from the search. */
  function ContextFor(docs: seq<Document>, query: Option<seq<real>>, ready: bool, ratio: (real, real, real) -> real): string
  {
    if query.Some? && ready then BuildContext(Search(docs, SimScore(query.value, ratio), DefaultTopK)) else ""
  }

  // ---------------------------------------------------------------------
  // One exchange

  /** The document a user turn is stored as when its embedding succeeds. */
  function UserTurnDoc(id: string, content: string, embedding: seq<real>, at: string): Document
  {
    Document("conversation_" + id, embedding, Metadata(None, None, content, Some(at), Some("conversation")))
  }

  /** The document a reply is stored as when its embedding succeeds. */
  function ReplyDoc(id: string, content: string, embedding: seq<real>, at: string): Document
  {
    Document("response_" + id, embedding, Metadata(None, None, content, Some(at), Some("conversation")))
  }

  /** The store after the user turn: unchanged when the question's
      embedding failed. */
  function WithUserTurn(docs: seq<Document>, id: string, content: string, query: Option<seq<real>>, at: string): seq<Document>
  {
    if query.Some? then Upsert(docs, UserTurnDoc(id, content, query.value, at), at) else docs
  }

  /** The store after the reply: unchanged when the chat call failed or the
      reply's embedding failed. */
  function WithReply(docs: seq<Document>, id: string, answer: Option<string>, embed: string -> Option<seq<real>>, at: string): seq<Document>
  {
    if answer.Some? && embed(answer.value).Some? then Upsert(docs, ReplyDoc(id, answer.value, embed(answer.value).value, at), at)
    else docs
  }

  /** The assistant's message: the answer, or the apology when the chat call failed. */
  function ReplyMessage(id: string, answer: Option<string>, at: string): Message
  {
    Message(id, Assistant, if answer.Some? then answer.value else Apology, at)
  }

  /** What one send produces: the new store contents, the context sent with
      the question, and the assistant's message. */
  datatype Exchange = Exchange(docs: seq<Document>, context: string, reply: Message)

  function Converse(
    docs: seq<Document>, ready: bool, content: string,
    sentMs: nat, sentAt: string, embed: string -> Option<seq<real>>,
    chat: (string, string) -> Option<string>, replyMs: nat, replyAt: string,
    ratio: (real, real, real) -> real): Exchange
  {
    var query := embed(content);
    var withUser := WithUserTurn(docs, NatToString(sentMs), content, query, sentAt);
    var context := ContextFor(withUser, query, ready, ratio);
    var replyId := NatToString(replyMs + 1);
    var answer := chat(content, context);
    Exchange(WithReply(withUser, replyId, answer, embed, replyAt), context, ReplyMessage(replyId, answer, replyAt))
  }

  /** The exchange, step by step, as the send handler performs it. */
  lemma ConverseSteps(
    docs: seq<Document>, ready: bool, content: string,
    sentMs: nat, sentAt: string, embed: string -> Option<seq<real>>,
    chat: (string, string) -> Option<string>, replyMs: nat, replyAt: string,
    ratio: (real, real, real) -> real)
    ensures var e := Converse(docs, ready, content, sentMs, sentAt, embed, chat, replyMs, replyAt, ratio);
      var withUser := WithUserTurn(docs, NatToString(sentMs), content, embed(content), sentAt);
      && e.context == ContextFor(withUser, embed(content), ready, ratio)
      && e.reply == ReplyMessage(NatToString(replyMs + 1), chat(content, e.context), replyAt)
      && e.docs == WithReply(withUser, NatToString(replyMs + 1), chat(content, e.context), embed, replyAt)
  {
  }

  /** The user turn is stored as `conversation_<id>` when its embedding
      succeeds, and nothing else is added. */
  lemma UserTurnStored(docs: seq<Document>, id: string, content: string, query: Option<seq<real>>, at: string)
    ensures var r := WithUserTurn(docs, id, content, query, at);
      && (query.Some? ==> Stamp(UserTurnDoc(id, content, query.value, at), at) in r)
      && (forall x :: x in r ==> x in docs || x.id == "conversation_" + id)
  {
    if query.Some? {
      var u := UserTurnDoc(id, content, query.value, at);
      UpsertKeepsOthers(docs, u, at, Stamp(u, at));
      forall x | x in Upsert(docs, u, at) ensures x in docs || x.id == "conversation_" + id {
        UpsertKeepsOthers(docs, u, at, x);
      }
    }
  }

  /** The reply is stored as `response_<id>` only when the chat call
      succeeded and its embedding did too; a stored user turn stays. */
  lemma ReplyStored(docs: seq<Document>, id: string, answer: Option<string>, embed: string -> Option<seq<real>>, at: string, userId: string, kept: Document)
    requires kept in docs && kept.id == "conversation_" + userId
    ensures var r := WithReply(docs, id, answer, embed, at);
      && (answer.Some? && embed(answer.value).Some? ==> Stamp(ReplyDoc(id, answer.value, embed(answer.value).value, at), at) in r)
      && (answer.None? ==> r == docs)
      && kept in r
      && (forall x :: x in r ==> x in docs || x.id == "response_" + id)
  {
    assert kept.id[0] == 'c';
    if answer.Some? && embed(answer.value).Some? {
      var d := ReplyDoc(id, answer.value, embed(answer.value).value, at);
      assert d.id[0] == 'r';
      UpsertKeepsOthers(docs, d, at, Stamp(d, at));
      UpsertKeepsOthers(docs, d, at, kept);
      forall x | x in Upsert(docs, d, at) ensures x in docs || x.id == "response_" + id {
        UpsertKeepsOthers(docs, d, at, x);
      }
    }
  }

  /** What one exchange stores and answers: the user turn as
      `conversation_<id>` when its embedding succeeds; the reply as
      `response_<reply id>` only when the chat call succeeded and the reply's
      embedding did too; nothing else new. A failed chat call is answered
      with the apology; no context is sent without a query embedding or
      before the knowledge base is ready. */
  lemma ConverseStores(
    docs: seq<Document>, ready: bool, content: string,
    sentMs: nat, sentAt: string, embed: string -> Option<seq<real>>,
    chat: (string, string) -> Option<string>, replyMs: nat, replyAt: string,
    ratio: (real, real, real) -> real)
    ensures var e := Converse(docs, ready, content, sentMs, sentAt, embed, chat, replyMs, replyAt, ratio);
      var id := NatToString(sentMs);
      var replyId := NatToString(replyMs + 1);
      var answer := chat(content, e.context);
      && (embed(content).None? || !ready ==> e.context == "")
      && (embed(content).Some? ==> Stamp(UserTurnDoc(id, content, embed(content).value, sentAt), sentAt) in e.docs)
      && (answer.Some? && embed(answer.value).Some? ==>
            Stamp(ReplyDoc(replyId, answer.value, embed(answer.value).value, replyAt), replyAt) in e.docs)
      && (answer.None? ==> e.reply.content == Apology && e.docs == WithUserTurn(docs, id, content, embed(content), sentAt))
      && (answer.Some? ==> e.reply.content == answer.value)
      && e.reply.id == replyId && e.reply.role == Assistant
      && (forall x :: x in e.docs ==> x in docs || x.id == "conversation_" + id || x.id == "response_" + replyId)
  {
    var id := NatToString(sentMs);
    var replyId := NatToString(replyMs + 1);
    var query := embed(content);
    var withUser := WithUserTurn(docs, id, content, query, sentAt);
    var context := ContextFor(withUser, query, ready, ratio);
    var answer := chat(content, context);
    UserTurnStored(docs, id, content, query, sentAt);
    if query.Some? {
      ReplyStored(withUser, replyId, answer, embed, replyAt, id, Stamp(UserTurnDoc(id, content, query.value, sentAt), sentAt));
    } else {
      var r := WithReply(withUser, replyId, answer, embed, replyAt);
      if answer.Some? && embed(answer.value).Some? {
        var d := ReplyDoc(replyId, answer.value, embed(answer.value).value, replyAt);
        UpsertKeepsOthers(withUser, d, replyAt, Stamp(d, replyAt));
        forall x | x in r ensures x in withUser || x.id == "response_" + replyId {
          UpsertKeepsOthers(withUser, d, replyAt, x);
        }
      }
    }
  }

  // ---------------------------------------------------------------------
  // The component's state

  class Chatbot {
    const store: Store
    var knowledgeReady: bool
    /** The time of the last rebuild, in milliseconds. */
    var lastKnowledgeUpdate: Option<int>
    var messages: seq<Message>
    var inputValue: string
    var loading: bool

    /** A new assistant: the greeting, an empty input, a store loaded from
        browser storage, knowledge not ready and never rebuilt. */
    constructor (stored: Slot<seq<Document>>, writable: bool, now: string)
      ensures fresh(store)
      ensures store.documents == Loaded(stored) && store.storage == stored && store.writable == writable
      ensures messages == [Message("1", Assistant, Greeting, now)]
      ensures !knowledgeReady && lastKnowledgeUpdate.None?
      ensures inputValue == "" && !loading
    {
      store := new Store(stored, writable);
      messages := [Message("1", Assistant, Greeting, now)];
      knowledgeReady := false;
      lastKnowledgeUpdate := None;
      inputValue := "";
      loading := false;
    }

    /** Typing into the input box. */
    method SetInput(s: string)
      modifies this
      ensures inputValue == s
      ensures messages == old(messages) && loading == old(loading)
      ensures knowledgeReady == old(knowledgeReady) && lastKnowledgeUpdate == old(lastKnowledgeUpdate)
    {
      inputValue := s;
    }

    /** `conversationDocs.forEach(doc => vectorStore.add(doc))`. */
    method AddAll(news: seq<Document>, now: string)
      modifies store
      ensures store.documents == UpsertAll(old(store.documents), news, now)
    {
      ghost var start := store.documents;
      var k := 0;
      while k < |news|
        invariant 0 <= k <= |news|
        invariant store.documents == UpsertAll(start, news[..k], now)
      {
        assert news[..k + 1][..k] == news[..k];
        store.Add(news[k], now);
        k := k + 1;
      }
      assert news[..k] == news;
    }

    /** The page loop: each page whose embedding succeeds is added; a failed
        page is skipped and the loop goes on. */
    method IndexPages(pages: seq<Page>, embed: string -> Option<seq<real>>, now: string)
      modifies store
      ensures store.documents == UpsertAll(old(store.documents), PageDocs(pages, embed), now)
    {
      ghost var start := store.documents;
      ghost var added: seq<Document> := [];
      var i := 0;
      while i < |pages|
        invariant 0 <= i <= |pages|
        invariant added == PageDocs(pages[..i], embed)
        invariant store.documents == UpsertAll(start, added, now)
      {
        PageDocsStep(pages, i, embed);
        var r := embed(PageText(pages[i]));
        if r.Some? {
          var d := PageDoc(pages[i], r.value);
          UpsertAllStep(start, added, d, now);
          store.Add(d, now);
          added := added + [d];
        }
        i := i + 1;
      }
      assert pages[..i] == pages;
    }

    /** The rebuild proper: the conversation documents are kept aside, the
        store is cleared, they are added back, then the pages are indexed. */
    method RebuildStore(pages: seq<Page>, embed: string -> Option<seq<real>>, now: string)
      modifies store
      ensures store.documents == Rebuild(old(store.documents), pages, embed, now)
    {
      var all := store.GetAllDocuments();
      store.Clear();
      AddAll(Filter(all, IsConversation), now);
      IndexPages(pages, embed, now);
    }

    /** `refreshKnowledgeBase`; `sitemap` is `None` when the fetch fails. */
    method Refresh(sitemap: Option<seq<Page>>, embed: string -> Option<seq<real>>, nowMs: int, now: string)
      modifies this, store
      ensures knowledgeReady
      ensures sitemap.None? ==>
        && store.documents == old(store.documents) && store.storage == old(store.storage)
        && lastKnowledgeUpdate == old(lastKnowledgeUpdate)
      ensures sitemap.Some? ==>
        store.documents == Rebuild(old(store.documents), sitemap.value, embed, now) && lastKnowledgeUpdate == Some(nowMs)
      ensures messages == old(messages) && inputValue == old(inputValue) && loading == old(loading)
    {
      if sitemap.None? {
        knowledgeReady := true;
        return;
      }
      RebuildStore(sitemap.value, embed, now);
      lastKnowledgeUpdate := Some(nowMs);
      knowledgeReady := true;
    }

    /** `initializeKnowledgeBase`: ready at once when the knowledge is fresh,
        rebuilt otherwise. */
    method Initialize(sitemap: Option<seq<Page>>, embed: string -> Option<seq<real>>, nowMs: int, now: string)
      modifies this, store
      ensures knowledgeReady
      ensures IsFresh(|old(store.documents)|, old(lastKnowledgeUpdate), nowMs) ==>
        store.documents == old(store.documents) && lastKnowledgeUpdate == old(lastKnowledgeUpdate)
      ensures !IsFresh(|old(store.documents)|, old(lastKnowledgeUpdate), nowMs) && sitemap.Some? ==>
        store.documents == Rebuild(old(store.documents), sitemap.value, embed, now) && lastKnowledgeUpdate == Some(nowMs)
      ensures !IsFresh(|old(store.documents)|, old(lastKnowledgeUpdate), nowMs) && sitemap.None? ==>
        store.documents == old(store.documents) && lastKnowledgeUpdate == old(lastKnowledgeUpdate)
      ensures messages == old(messages) && inputValue == old(inputValue) && loading == old(loading)
    {
      var stats := store.GetStats();
      if stats.totalDocuments > 0 && lastKnowledgeUpdate.Some? && HoursSince(lastKnowledgeUpdate.value, nowMs) < 24.0 {
        knowledgeReady := true;
        return;
      }
      Refresh(sitemap, embed, nowMs, now);
    }

    /** Stores the user turn when its embedding succeeded. */
    method RecordUserTurn(id: string, content: string, query: Option<seq<real>>, at: string)
      modifies store
      ensures store.documents == WithUserTurn(old(store.documents), id, content, query, at)
    {
      if query.Some? {
        store.Add(UserTurnDoc(id, content, query.value, at), at);
      }
    }

    /** The retrieval step: the context built from the top matches. */
    method Retrieve(query: Option<seq<real>>, ready: bool, ratio: (real, real, real) -> real) returns (context: string)
      ensures context == ContextFor(store.documents, query, ready, ratio)
    {
      context := "";
      if query.Some? && ready {
        var results := store.SimilaritySearch(query.value, DefaultTopK, ratio);
        context := BuildContext(results);
      }
    }

    /** Stores the reply when the chat call and the reply's embedding succeeded. */
    method RecordReply(id: string, answer: Option<string>, embed: string -> Option<seq<real>>, at: string)
      modifies store
      ensures store.documents == WithReply(old(store.documents), id, answer, embed, at)
    {
      if answer.Some? {
        var stored := embed(answer.value);
        if stored.Some? {
          store.Add(ReplyDoc(id, answer.value, stored.value, at), at);
        }
      }
    }

    /** `handleSendMessage`. `sentMs`/`sentAt` is the clock when the question
        is sent, `replyMs`/`replyAt` when the answer (or the failure) arrives;
        `chat(question, context)` is the chat endpoint's answer. */
    method HandleSendMessage(
      sentMs: nat, sentAt: string, embed: string -> Option<seq<real>>,
      chat: (string, string) -> Option<string>, replyMs: nat, replyAt: string,
      ratio: (real, real, real) -> real)
      modifies this, store
      ensures old(IsBlank(inputValue) || loading) ==> unchanged(this) && unchanged(store)
      ensures !old(IsBlank(inputValue) || loading) ==>
        var content := Trim(old(inputValue));
        var e := Converse(old(store.documents), old(knowledgeReady), content, sentMs, sentAt, embed, chat, replyMs, replyAt, ratio);
        && messages == old(messages) + [Message(NatToString(sentMs), User, content, sentAt), e.reply]
        && store.documents == e.docs
        && inputValue == "" && !loading
        && knowledgeReady == old(knowledgeReady) && lastKnowledgeUpdate == old(lastKnowledgeUpdate)
    {
      if IsBlank(inputValue) || loading {
        return;
      }
      var content := Trim(inputValue);
      var ready := knowledgeReady;
      ConverseSteps(store.documents, ready, content, sentMs, sentAt, embed, chat, replyMs, replyAt, ratio);
      var query := Ask(content, sentMs, sentAt, embed);
      Answer(content, query, ready, embed, chat, replyMs, replyAt, ratio);
    }

    /** The question's half of the send: the user's message is shown, the
        input cleared, and the question stored when its embedding succeeds. */
    method Ask(content: string, sentMs: nat, sentAt: string, embed: string -> Option<seq<real>>) returns (query: Option<seq<real>>)
      modifies this, store
      ensures query == embed(content)
      ensures messages == old(messages) + [Message(NatToString(sentMs), User, content, sentAt)]
      ensures store.documents == WithUserTurn(old(store.documents), NatToString(sentMs), content, query, sentAt)
      ensures inputValue == "" && loading
      ensures knowledgeReady == old(knowledgeReady) && lastKnowledgeUpdate == old(lastKnowledgeUpdate)
    {
      var id := NatToString(sentMs);
      messages := messages + [Message(id, User, content, sentAt)];
      inputValue := "";
      loading := true;
      query := embed(content);
      RecordUserTurn(id, content, query, sentAt);
    }

    /** The answer's half: retrieval, the chat call, the assistant's message
        (or the apology), the reply stored, and loading ended. */
    method Answer(
      content: string, query: Option<seq<real>>, ready: bool, embed: string -> Option<seq<real>>,
      chat: (string, string) -> Option<string>, replyMs: nat, replyAt: string, ratio: (real, real, real) -> real)
      modifies this, store
      ensures var context := ContextFor(old(store.documents), query, ready, ratio);
        var answer := chat(content, context);
        && messages == old(messages) + [ReplyMessage(NatToString(replyMs + 1), answer, replyAt)]
        && store.documents == WithReply(old(store.documents), NatToString(replyMs + 1), answer, embed, replyAt)
      ensures !loading && inputValue == old(inputValue)
      ensures knowledgeReady == old(knowledgeReady) && lastKnowledgeUpdate == old(lastKnowledgeUpdate)
    {
      var context := Retrieve(query, ready, ratio);
      var replyId := NatToString(replyMs + 1);
      var answer := chat(content, context);
      messages := messages + [ReplyMessage(replyId, answer, replyAt)];
      RecordReply(replyId, answer, embed, replyAt);
      loading := false;
    }
  }
}
