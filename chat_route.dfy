/** The chat route of the server: POST / runs one chat turn against the caller's user record
    (guards, best-effort web search, prompt composition, generation, quota decrement, bounded
    history, save); GET /history lists the stored prompts newest first.

    The JWT check, the user lookup, the search API, the generation API and the database write
    are collaborators whose outcomes are parameters; each handler also returns the sequence of
    collaborator calls it made, so that "nothing was attempted" can be stated. */
module ChatRoute {
  import opened Common
  import opened Text
  import opened JsValues

  /** Number of history entries a user record keeps. */
  const HistoryLimit: nat := 50

  const NoTokenMsg := "No token, authorization denied"
  const UserNotFoundMsg := "User not found"
  const NoTokensLeftMsg := "No tokens left"
  const ServerErrorMsg := "Server Error"

  /** The fixed system instruction that opens every generation request. */
  const SystemInstruction: string :=
    "You are \"Genie\", a helpful assistant. Reply in clean, ChatGPT-style formatting so answers are easy to scan and professional.\n" +
    "\n" +
    "FORMATTING RULES (follow strictly):\n" +
    "1. Structure with headers: Use ## for main sections (e.g. \"## Summary\", \"## Steps\", \"## Key points\"). Use ### for subsections when needed.\n" +
    "2. Lists: Use bullet points (- or *) for options/items; use numbered lists (1. 2. 3.) for steps or ordered items.\n" +
    "3. Emphasis: Use **bold** for key terms and important phrases. Use *italic* for subtle emphasis.\n" +
    "4. Code: Use `inline code` for one short piece (command, variable). Use fenced blocks for multiple lines:\n" +
    "   ```language\n" +
    "   code here\n" +
    "   ```\n" +
    "   Always add the language (e.g. javascript, python, bash) after the opening ```.\n" +
    "5. Tables: When comparing things, listing attributes, or showing data, use Markdown tables:\n" +
    "   | Column A | Column B |\n" +
    "   | -------- | -------- |\n" +
    "   | cell     | cell     |\n" +
    "6. Blockquotes: Use > for important takeaways, tips, or quotes.\n" +
    "7. Brevity: Short paragraphs (2-4 sentences). No filler like \"Here's the answer:\" or \"I hope this helps!\" unless it fits naturally.\n" +
    "8. Emojis: Use sparingly and only when they add clarity (e.g. \U{2705} \U{274C} \U{1F4A1} \U{26A0}\U{FE0F} for tips/warnings).\n" +
    "\n" +
    "Start your reply with the answer. Do not repeat the user's question."


  const SearchPreamble := "Connect the user's query with the following search results to provide a comprehensive answer.\n\nSearch Context:\n"
  const QueryHeading := "\n\nUser Query:\n"
  const UserHeading := "\n\n---\n\nUser: "
  const PromptSuffix := "\n\nGenie (reply in Markdown with emojis where appropriate):"

  type UserId = string

  /** One stored prompt, with its submission time in milliseconds. */
  datatype Entry = Entry(prompt: string, createdAt: nat)

  /** The persisted part of a user: the quota counter and the (possibly absent) history. */
  datatype UserData = UserData(tokensLeft: int, history: Option<seq<Entry>>)

  /** The `x-auth-token` header: absent, present but rejected by jwt.verify, or naming a user. */
  datatype Credential = NoToken | BadToken | Token(userId: UserId)

  /** The search API call: it raised, or it answered with `data.results` (empty when absent). */
  datatype SearchOutcome = SearchFailed | SearchOk(results: seq<JsVal>)

  /** The generation API call: it raised, or it produced the answer text. */
  datatype GenOutcome = GenThrows | GenText(text: string)

  /** A citation returned to the client. */
  datatype Source = Source(title: JsVal, url: string)

  datatype Reply =
    | Status(code: int, msg: string)
    | ChatAnswer(response: string, tokensLeft: int, sources: seq<Source>)
    | HistoryList(history: seq<Entry>)

  /** The collaborator calls a handler makes, in order. `Generate(userPart)` stands for the
      generation request whose text is `FullPrompt(userPart)`: the instruction and headings around
      the user part are constants, so the user part determines the request. */
  datatype Call = VerifyToken | FindUser | WebSearch(query: string) | Generate(userPart: string) | SaveUser

  // ---------------------------------------------------------------- history

  /** Push `e` and keep the last HistoryLimit entries (`push` then `slice(-50)`). */
  function AppendCapped(h: seq<Entry>, e: Entry): seq<Entry> {
    KeepLast(h + [e], HistoryLimit)
  }

  /** The new history is the old history plus the entry with the oldest surplus dropped:
      it is bounded, ends with the entry as given, keeps the retained entries in order, and
      drops exactly the oldest entry when the history was full. */
  lemma AppendCappedShape(h: seq<Entry>, e: Entry)
    ensures var r := AppendCapped(h, e);
      && r == (h + [e])[if |h| + 1 > HistoryLimit then |h| + 1 - HistoryLimit else 0..]
      && |r| <= HistoryLimit
      && r[|r| - 1] == e
      && (|h| < HistoryLimit ==> r == h + [e])
      && (|h| == HistoryLimit ==> r == h[1..] + [e])
  {
    var r := AppendCapped(h, e);
    if |h| == HistoryLimit {
      assert (h + [e])[1..] == h[1..] + [e];
    }
  }

  /** Retained entries keep their relative order: entry i of the new history is an old entry
      itself, and later old entries stay later. */
  lemma AppendCappedKeepsOrder(h: seq<Entry>, e: Entry, i: nat, j: nat)
    requires i < j < |AppendCapped(h, e)| - 1
    ensures var d := |h| + 1 - |AppendCapped(h, e)|;
      && AppendCapped(h, e)[i] == h[d + i]
      && AppendCapped(h, e)[j] == h[d + j]
      && d + i < d + j
  {
  }

  /** The user record after a successful turn. */
  function AfterTurn(u: UserData, e: Entry): UserData {
    UserData(u.tokensLeft - 1, Some(AppendCapped(u.history.GetOr([]), e)))
  }

  /** A successful turn uses up exactly one unit of quota, leaves a bounded history ending in
      the new entry, and never takes a positive counter below zero. */
  lemma AfterTurnEffect(u: UserData, e: Entry)
    requires u.tokensLeft > 0
    ensures var v := AfterTurn(u, e);
      && v.tokensLeft == u.tokensLeft - 1 && v.tokensLeft >= 0
      && v.history.Some? && 1 <= |v.history.value| <= HistoryLimit
      && v.history.value[|v.history.value| - 1] == e
  {
    AppendCappedShape(u.history.GetOr([]), e);
  }

  // ---------------------------------------------------------------- search

  /** `data.results && data.results.length > 0`, and the `.map` over the hits did not throw. */
  predicate HitsUsable(search: SearchOutcome) {
    && search.SearchOk?
    && |search.results| > 0
    && forall k :: 0 <= k < |search.results| ==> !ReadThrows(search.results[k])
  }

  /** The context block for one hit. */
  function HitText(r: JsVal): (t: string)
    ensures "Title: " <= t
  {
    "Title: " + ToText(Prop(r, "title")) + "\nContent: " + ToText(Prop(r, "content"))
      + "\nURL: " + ToText(Prop(r, "url"))
  }

  /** The search context: every hit's block, separated by blank lines, or "" without hits. */
  function SearchContextOf(search: SearchOutcome): (c: string)
    ensures c == "" <==> !HitsUsable(search)
  {
    if HitsUsable(search) then
      var rs := search.results;
      var blocks := seq(|rs|, k requires 0 <= k < |rs| => HitText(rs[k]));
      JoinStartsWithFirst(blocks, "\n\n");
      Join(blocks, "\n\n")
    else ""
  }

  /** The source filter: `url` is truthy, a string, and starts with "http". */
  predicate IsCitable(r: JsVal) {
    Truthy(Prop(r, "url")) && StringPropStartsWith(r, "url", "http")
  }

  /** The hits that become sources, in search order. */
  function CitedHits(search: SearchOutcome): (hits: seq<JsVal>)
    ensures !HitsUsable(search) ==> hits == []
    ensures HitsUsable(search) ==> IsSubsequence(hits, search.results)
    ensures forall k :: 0 <= k < |hits| ==> IsCitable(hits[k])
    ensures HitsUsable(search) ==>
      forall k :: 0 <= k < |search.results| && IsCitable(search.results[k]) ==> search.results[k] in hits
  {
    if HitsUsable(search) then
      FilterIsSubsequence(search.results, IsCitable);
      FilterKeeps(search.results, IsCitable);
      Filter(search.results, IsCitable)
    else []
  }

  /** `{ title: r.title || "Source", url: r.url }`. */
  function ToSource(r: JsVal): Source
    requires IsCitable(r)
  {
    Source(Or(Prop(r, "title"), Str("Source")), Prop(r, "url").s)
  }

  /** The sources of the reply: one per cited hit, in order, each with an http(s)-looking url
      and a title that is the hit's own when truthy and "Source" otherwise. */
  function SourcesOf(search: SearchOutcome): (r: seq<Source>)
    ensures |r| == |CitedHits(search)|
    ensures !HitsUsable(search) ==> r == []
    ensures forall k :: 0 <= k < |r| ==>
      var hit := CitedHits(search)[k];
      && Prop(hit, "url") == Str(r[k].url)
      && "http" <= r[k].url
      && Truthy(r[k].title)
      && (Truthy(Prop(hit, "title")) ==> r[k].title == Prop(hit, "title"))
      && (!Truthy(Prop(hit, "title")) ==> r[k].title == Str("Source"))
  {
    var hits := CitedHits(search);
    seq(|hits|, k requires 0 <= k < |hits| => ToSource(hits[k]))
  }

  // ---------------------------------------------------------------- prompt

  /** The user part of the prompt: the raw prompt without search context, otherwise a block
      that presents the context and ends with the prompt. */
  function UserPart(context: string, prompt: string): (r: string)
    ensures context == "" ==> r == prompt
    ensures context != "" ==>
      && |r| == |SearchPreamble| + |context| + |QueryHeading| + |prompt|
      && r[|r| - |prompt|..] == prompt
      && r[|SearchPreamble|..|SearchPreamble| + |context|] == context
  {
    if context != "" then SearchPreamble + context + QueryHeading + prompt else prompt
  }

  /** The full generation request: the system instruction, the heading, the user part, then
      the fixed reply cue. */
  function FullPrompt(userPart: string): string {
    Compose(SystemInstruction, userPart)
  }

  /** The request text around a given instruction: it opens with the instruction, ends with
      the suffix, and the user part can be cut back out between the heading and the suffix. */
  function Compose(instruction: string, userPart: string): (r: string)
    ensures instruction <= r
    ensures |r| == |instruction| + |UserHeading| + |userPart| + |PromptSuffix|
    ensures r[|r| - |PromptSuffix|..] == PromptSuffix
    ensures r[|instruction| + |UserHeading|..|r| - |PromptSuffix|] == userPart
  {
    var r := instruction + UserHeading + userPart + PromptSuffix;
    assert r[..|instruction|] == instruction;
    r
  }

  /** The user part of the generation request in a turn with this search outcome. */
  function TurnUserPart(search: SearchOutcome, prompt: string): string {
    UserPart(SearchContextOf(search), prompt)
  }

  /** The user part is the bare prompt exactly when the search gave nothing usable. */
  lemma UserPartIsPromptIffNoHits(search: SearchOutcome, prompt: string)
    ensures UserPart(SearchContextOf(search), prompt) == prompt <==> !HitsUsable(search)
  {
    var c := SearchContextOf(search);
    if c != "" {
      assert |UserPart(c, prompt)| > |prompt|;
    }
  }

  // ---------------------------------------------------------------- records

  /** The in-memory user document that the handler loads, changes in place and saves. */
  class UserDocument {
    const id: UserId
    var tokensLeft: int
    var history: Option<seq<Entry>>

    constructor Load(id: UserId, data: UserData)
      ensures this.id == id && Data() == data
    {
      this.id := id;
      tokensLeft := data.tokensLeft;
      history := data.history;
    }

    function Data(): UserData
      reads this
    {
      UserData(tokensLeft, history)
    }

    /** `user.tokens_left -= 1`. */
    method ConsumeToken()
      modifies this
      ensures tokensLeft == old(tokensLeft) - 1 && history == old(history)
    {
      tokensLeft := tokensLeft - 1;
    }

    /** Default the history to [], push the entry, keep the last HistoryLimit entries. */
    method RecordPrompt(e: Entry)
      modifies this
      ensures tokensLeft == old(tokensLeft)
      ensures history == Some(AppendCapped(old(history).GetOr([]), e))
    {
      if history.None? {
        history := Some([]);
      }
      history := Some(history.value + [e]);
      if |history.value| > HistoryLimit {
        history := Some(history.value[|history.value| - HistoryLimit..]);
      }
    }
  }

  /** The persisted collection of user records. */
  class UserCollection {
    var records: map<UserId, UserData>

    constructor (records: map<UserId, UserData>)
      ensures this.records == records
    {
      this.records := records;
    }

    /** `User.findById`: a fresh document holding the stored record, or null. */
    method FindById(id: UserId) returns (doc: UserDocument?)
      ensures (doc != null) == (id in records)
      ensures doc != null ==> fresh(doc) && doc.id == id && doc.Data() == records[id]
    {
      if id in records {
        doc := new UserDocument.Load(id, records[id]);
      } else {
        doc := null;
      }
    }

    /** `user.save()`: when the write goes through, the document replaces the stored record;
        when it fails, the store keeps what it had. */
    method Save(doc: UserDocument, succeeds: bool) returns (saved: bool)
      modifies this
      ensures saved == succeeds
      ensures records == if succeeds then old(records)[doc.id := doc.Data()] else old(records)
    {
      saved := succeeds;
      if succeeds {
        records := records[doc.id := doc.Data()];
      }
    }
  }

  /** The caller holds a token for a stored user whose counter is positive. */
  predicate MayTurn(records: map<UserId, UserData>, credential: Credential) {
    credential.Token? && credential.userId in records && records[credential.userId].tokensLeft > 0
  }

  // ---------------------------------------------------------------- handlers

  /** What POST / leaves behind: the reply, the collaborator calls made, and the stored records. */
  datatype TurnResult = TurnResult(reply: Reply, calls: seq<Call>, records: map<UserId, UserData>)

  /** One chat turn as a function of the stored records and the collaborators' outcomes. The
      stored users stay the same users, and a record changes only when it is the caller's, the
      caller may take a turn, the generation produced text and the save went through. */
  function ChatTurn(records: map<UserId, UserData>, credential: Credential, prompt: string,
                    search: SearchOutcome, generation: GenOutcome, saveSucceeds: bool, now: nat): (t: TurnResult)
    ensures t.records.Keys == records.Keys
    ensures forall id :: id in records && t.records[id] != records[id] ==>
      && MayTurn(records, credential) && id == credential.userId
      && generation.GenText? && saveSucceeds
  {
    match credential
    case NoToken => TurnResult(Status(401, NoTokenMsg), [], records)
    case BadToken => TurnResult(Status(500, ServerErrorMsg), [VerifyToken], records)
    case Token(id) =>
      if id !in records then TurnResult(Status(404, UserNotFoundMsg), [VerifyToken, FindUser], records)
      else if records[id].tokensLeft <= 0 then
        TurnResult(Status(403, NoTokensLeftMsg), [VerifyToken, FindUser], records)
      else
        var a := Attempt(records, id, prompt, TurnUserPart(search, prompt), SourcesOf(search),
                         generation, saveSucceeds, now);
        TurnResult(a.reply, [VerifyToken, FindUser] + a.calls, a.records)
  }

  /** The guards run in order (token, user, quota); each failing guard answers with its own
      status, changes nothing and calls nothing further. */
  lemma ChatTurnRefusals(records: map<UserId, UserData>, credential: Credential, prompt: string,
                         search: SearchOutcome, generation: GenOutcome, saveSucceeds: bool, now: nat)
    ensures var t := ChatTurn(records, credential, prompt, search, generation, saveSucceeds, now);
      && (credential.NoToken? ==> t == TurnResult(Status(401, NoTokenMsg), [], records))
      && (credential.BadToken? ==> t == TurnResult(Status(500, ServerErrorMsg), [VerifyToken], records))
      && (credential.Token? && credential.userId !in records ==>
            t == TurnResult(Status(404, UserNotFoundMsg), [VerifyToken, FindUser], records))
      && (credential.Token? && credential.userId in records && records[credential.userId].tokensLeft <= 0 ==>
            t == TurnResult(Status(403, NoTokensLeftMsg), [VerifyToken, FindUser], records))
      && (t.reply.Status? && t.reply.code != 500 ==> !MayTurn(records, credential))
  {
  }

  /** A permitted turn always searches and then generates with the composed prompt. A failed
      generation or save answers 500 and leaves the records as they were; otherwise the reply
      carries the answer, the decremented counter and the sources, and the caller's record
      is replaced by its state after the turn. */
  lemma ChatTurnPermitted(records: map<UserId, UserData>, credential: Credential, prompt: string,
                          search: SearchOutcome, generation: GenOutcome, saveSucceeds: bool, now: nat)
    requires MayTurn(records, credential)
    ensures var t := ChatTurn(records, credential, prompt, search, generation, saveSucceeds, now);
      && |t.calls| >= 4 && t.calls[..4]
         == [VerifyToken, FindUser, WebSearch(prompt), Generate(TurnUserPart(search, prompt))]
      && (generation.GenThrows? ==>
            t.reply == Status(500, ServerErrorMsg) && |t.calls| == 4 && t.records == records)
      && (generation.GenText? ==> |t.calls| == 5 && t.calls[4] == SaveUser)
      && (generation.GenText? && !saveSucceeds ==>
            t.reply == Status(500, ServerErrorMsg) && t.records == records)
      && (generation.GenText? && saveSucceeds ==>
            var u := records[credential.userId];
            && t.reply == ChatAnswer(generation.text, u.tokensLeft - 1, SourcesOf(search))
            && t.records == records[credential.userId := AfterTurn(u, Entry(prompt, now))])
  {
  }

  /** The turn past the guards, given what the search step produced (the user part of the
      request and the sources): search, generate, and commit only when both generation and
      the save succeed. The calls listed are the ones made after the guards. */
  function Attempt(records: map<UserId, UserData>, id: UserId, prompt: string, userPart: string,
                   sources: seq<Source>, generation: GenOutcome, saveSucceeds: bool, now: nat): TurnResult
    requires id in records
  {
    match generation
    case GenThrows => TurnResult(Status(500, ServerErrorMsg), [WebSearch(prompt), Generate(userPart)], records)
    case GenText(text) =>
      var calls := [WebSearch(prompt), Generate(userPart), SaveUser];
      if !saveSucceeds then TurnResult(Status(500, ServerErrorMsg), calls, records)
      else
        var u := records[id];
        TurnResult(ChatAnswer(text, u.tokensLeft - 1, sources), calls,
                   records[id := AfterTurn(u, Entry(prompt, now))])
  }

  /** POST /: one chat turn on the store, as ChatTurn describes it. */
  method PostChat(users: UserCollection, credential: Credential, prompt: string,
                  search: SearchOutcome, generation: GenOutcome, saveSucceeds: bool, now: nat)
    returns (reply: Reply, calls: seq<Call>)
    modifies users
    ensures TurnResult(reply, calls, users.records)
         == ChatTurn(old(users.records), credential, prompt, search, generation, saveSucceeds, now)
  {
    var user;
    user, reply, calls := Authorize(users, credential, true);
    if user == null {
      return;
    }
    var userPart, sources := PrepareTurn(prompt, search);
    var rest;
    rest, reply := RunTurn(users, user, prompt, userPart, sources, generation, saveSucceeds, now);
    calls := calls + rest;
  }

  /** The guards shared by both routes, in order: a token is present, it verifies, it names a
      stored user, and (when `checkQuota`) that user's counter is positive. On success the
      loaded document is returned; otherwise the error reply, and nothing further was called. */
  method Authorize(users: UserCollection, credential: Credential, checkQuota: bool)
    returns (user: UserDocument?, reply: Reply, calls: seq<Call>)
    ensures credential.NoToken? ==> user == null && reply == Status(401, NoTokenMsg) && calls == []
    ensures credential.BadToken? ==>
      user == null && reply == Status(500, ServerErrorMsg) && calls == [VerifyToken]
    ensures credential.Token? ==> calls == [VerifyToken, FindUser]
    ensures credential.Token? && credential.userId !in users.records ==>
      user == null && reply == Status(404, UserNotFoundMsg)
    ensures credential.Token? && credential.userId in users.records && checkQuota
            && users.records[credential.userId].tokensLeft <= 0 ==>
      user == null && reply == Status(403, NoTokensLeftMsg)
    ensures user != null <==>
      credential.Token? && credential.userId in users.records
      && (checkQuota ==> users.records[credential.userId].tokensLeft > 0)
    ensures user != null ==>
      fresh(user) && user.id == credential.userId && user.Data() == users.records[user.id]
  {
    calls := [];
    user := null;
    if credential.NoToken? {
      return null, Status(401, NoTokenMsg), calls;
    }
    calls := calls + [VerifyToken];
    if credential.BadToken? {
      return null, Status(500, ServerErrorMsg), calls;
    }
    calls := calls + [FindUser];
    user := users.FindById(credential.userId);
    if user == null {
      return null, Status(404, UserNotFoundMsg), calls;
    }
    if checkQuota && user.tokensLeft <= 0 {
      return null, Status(403, NoTokensLeftMsg), calls;
    }
    reply := Status(200, "");  // not sent: the route goes on with the document
  }

  /** The part of a turn after the guards and the search step, on a loaded document whose
      counter is positive: generate, and only after generation succeeds change the document
      and save it. */
  method RunTurn(users: UserCollection, user: UserDocument, prompt: string, userPart: string,
                 sources: seq<Source>, generation: GenOutcome, saveSucceeds: bool, now: nat)
    returns (calls: seq<Call>, reply: Reply)
    requires user.id in users.records && user.Data() == users.records[user.id]
    requires user.tokensLeft > 0
    modifies users, user
    ensures TurnResult(reply, calls, users.records)
         == Attempt(old(users.records), user.id, prompt, userPart, sources, generation, saveSucceeds, now)
  {
    if generation.GenThrows? {
      return [WebSearch(prompt), Generate(userPart)], Status(500, ServerErrorMsg);
    }
    calls := [WebSearch(prompt), Generate(userPart), SaveUser];
    var saved := Commit(users, user, Entry(prompt, now), saveSucceeds);
    if !saved {
      return calls, Status(500, ServerErrorMsg);
    }
    reply := ChatAnswer(generation.text, user.tokensLeft, sources);
  }

  /** The search step: with usable hits, their context goes before the question and their
      sources are kept for the reply; otherwise the question stands alone with no sources. */
  method PrepareTurn(prompt: string, search: SearchOutcome) returns (userPart: string, sources: seq<Source>)
    ensures userPart == TurnUserPart(search, prompt)
    ensures sources == SourcesOf(search)
    ensures !HitsUsable(search) ==> userPart == prompt && sources == []
  {
    var searchContext := "";
    sources := [];
    if HitsUsable(search) {
      searchContext := SearchContextOf(search);
      sources := SourcesOf(search);
    }
    userPart := UserPart(searchContext, prompt);
  }

  /** The bookkeeping of a generated answer: one token less and the prompt recorded on the
      document, then the save, which stores the changed record only when it goes through. */
  method Commit(users: UserCollection, user: UserDocument, e: Entry, saveSucceeds: bool)
    returns (saved: bool)
    requires user.id in users.records && user.Data() == users.records[user.id]
    modifies users, user
    ensures user.Data() == AfterTurn(old(user.Data()), e)
    ensures saved == saveSucceeds
    ensures users.records == if saved then old(users.records)[user.id := AfterTurn(old(user.Data()), e)]
                             else old(users.records)
  {
    ghost var before := user.Data();
    user.ConsumeToken();
    user.RecordPrompt(e);
    assert user.history == Some(AppendCapped(before.history.GetOr([]), e));
    ghost var after := user.Data();
    assert after == AfterTurn(before, e);
    saved := users.Save(user, saveSucceeds);
    assert user.Data() == after;
  }

  /** GET /history: the caller's stored history, newest first; nothing is changed. */
  method GetHistory(users: UserCollection, credential: Credential) returns (reply: Reply, calls: seq<Call>)
    ensures credential.NoToken? ==> reply == Status(401, NoTokenMsg) && calls == []
    ensures credential.BadToken? ==> reply == Status(500, ServerErrorMsg) && calls == [VerifyToken]
    ensures credential.Token? && credential.userId !in users.records ==>
      reply == Status(404, UserNotFoundMsg) && calls == [VerifyToken, FindUser]
    ensures credential.Token? && credential.userId in users.records ==>
      var h := users.records[credential.userId].history.GetOr([]);
      && reply.HistoryList? && |reply.history| == |h|
      && (forall i :: 0 <= i < |h| ==> reply.history[i] == h[|h| - 1 - i])
      && calls == [VerifyToken, FindUser]
  {
    var user;
    user, reply, calls := Authorize(users, credential, false);
    if user == null {
      return;
    }
    var h := user.history.GetOr([]);
    forall i | 0 <= i < |h| ensures Reverse(h)[i] == h[|h| - 1 - i] {
      ReverseAt(h, i);
    }
    reply := HistoryList(Reverse(h));
  }

  /** Right after a successful turn, the history read shows the new prompt first, followed by
      the retained older prompts from newest to oldest. */
  lemma NewestFirstAfterTurn(u: UserData, e: Entry)
    ensures var h := AfterTurn(u, e).history.GetOr([]);
      && |Reverse(h)| >= 1 && Reverse(h)[0] == e
      && forall i :: 1 <= i < |h| ==> Reverse(h)[i] == h[|h| - 1 - i]
  {
    var h := AfterTurn(u, e).history.GetOr([]);
    AppendCappedShape(u.history.GetOr([]), e);
    ReverseAt(h, 0);
    forall i | 1 <= i < |h| ensures Reverse(h)[i] == h[|h| - 1 - i] {
      ReverseAt(h, i);
    }
  }
}
