/**
 * The chat-history importer of fetch_wati_chats.js: the page-by-page fetch of the
 * contact list and of each contact's messages, the date filter, the normalised
 * record kept for each message, the message total and the training text built
 * from the chats. The provider's API is an oracle from page numbers to what a
 * request yields: the list the response holds, or a failure. The date range is
 * an abstract predicate on a message.
 */
module Importer {
  import opened Wrappers
  import opened Json
  import Seqs

  const PageSize: nat := 100

  /** What one page request yields: a thrown error, or the response's list (empty when it holds none). */
  datatype PageResult<T> = Failed | Page(items: seq<T>)

  /** The loop asks for the next page only after a full page. */
  predicate Continues<T>(r: PageResult<T>) {
    r.Page? && |r.items| >= PageSize
  }

  function Filter<T>(s: seq<T>, keep: T -> bool): (r: seq<T>)
    ensures |r| <= |s|
  {
    if s == [] then [] else Filter(s[..|s| - 1], keep) + (if keep(s[|s| - 1]) then [s[|s| - 1]] else [])
  }

  function ItemsOf<T>(r: PageResult<T>): seq<T> {
    if r.Page? then r.items else []
  }

  /**
   * What the loop gathers from page `p` on, for a provider whose page `last`
   * ends the loop: each page's kept items, up to and including the first page that
   * fails, is empty or is short.
   */
  function Collect<T>(pages: nat -> PageResult<T>, keep: T -> bool, p: nat, last: nat): seq<T>
    decreases last - p
  {
    if p > last then []
    else
      var r := pages(p);
      if r.Failed? || |r.items| == 0 then []
      else Filter(r.items, keep) + (if |r.items| < PageSize then [] else Collect(pages, keep, p + 1, last))
  }

  /**
   * The `while (true)` loop of `fetchAllContacts` and `fetchMessagesForContact`,
   * from page 1. It ends only because some page `last` is not full.
   */
  method Paginate<T>(pages: nat -> PageResult<T>, keep: T -> bool, ghost last: nat) returns (all: seq<T>)
    requires 1 <= last && !Continues(pages(last))
    ensures all == Collect(pages, keep, 1, last)
  {
    all := [];
    var pageNumber := 1;
    while true
      invariant 1 <= pageNumber <= last
      invariant all + Collect(pages, keep, pageNumber, last) == Collect(pages, keep, 1, last)
      decreases last - pageNumber
    {
      var response := pages(pageNumber);
      if response.Failed? {
        break;
      }
      var items := response.items;
      if |items| == 0 {
        break;
      }
      all := all + Filter(items, keep);
      if |items| < PageSize {
        break;
      }
      pageNumber := pageNumber + 1;
    }
  }

  // ---------------------------------------------------------------------------
  // Records

  const ContactIdKeys: seq<string> := ["wAid", "waId", "whatsappNumber", "phone"]
  const ContactNameKeys: seq<string> := ["name", "fullName"]

  function ContactId(c: Object): Value {
    Chain(c, ContactIdKeys)
  }

  function ContactName(c: Object): Value {
    OrElse(Chain(c, ContactNameKeys), Str("Unknown"))
  }

  /**
   * The stored timestamp: `created`, else `timestamp`, else the ISO text of
   * `time` seconds (left abstract as the `time` value it comes from), else null.
   */
  datatype Stamp = Given(value: Value) | FromTime(time: Value) | NoStamp

  datatype Record = Record(id: Value, text: Value, isOwner: Value, status: Value, timestamp: Stamp, kind: Value)

  function StampOf(m: Object): Stamp {
    if Truthy(Get(m, "created")) then Given(Get(m, "created"))
    else if Truthy(Get(m, "timestamp")) then Given(Get(m, "timestamp"))
    else if Truthy(Get(m, "time")) then FromTime(Get(m, "time"))
    else NoStamp
  }

  /** The record kept for a fetched message. */
  function Normalise(m: Object): Record {
    Record(
      Chain(m, ["id", "whatsappMessageId"]),
      Chain(m, ["text", "message", "body"]),
      OrElse(Chain(m, ["owner", "isOwner"]), Bool(false)),
      Chain(m, ["statusString", "status"]),
      StampOf(m),
      OrElse(Get(m, "type"), Str("text")))
  }

  function Records(ms: seq<Object>): (rs: seq<Record>)
    ensures |rs| == |ms| && forall i | 0 <= i < |ms| :: rs[i] == Normalise(ms[i])
  {
    if ms == [] then [] else Records(ms[..|ms| - 1]) + [Normalise(ms[|ms| - 1])]
  }

  datatype Chat = Chat(waId: Value, name: Value, messageCount: nat, messages: seq<Record>)

  /** A contact's entry in `allChats`: none without an id or without messages in range. */
  function ChatFor(contact: Object, messages: seq<Object>): Option<Chat> {
    var waId := ContactId(contact);
    if !Truthy(waId) || |messages| == 0 then None
    else Some(Chat(waId, ContactName(contact), |messages|, Records(messages)))
  }

  function Listed<T>(o: Option<T>): seq<T> {
    if o.Some? then [o.value] else []
  }

  /** A contact's entry, where `fetch(waId)` is what the message loop gathers for an id. */
  function EntryOf(contact: Object, fetch: Value -> seq<Object>): Option<Chat> {
    ChatFor(contact, fetch(ContactId(contact)))
  }

  /** `allChats` for the given contacts. */
  function AllChats(contacts: seq<Object>, fetch: Value -> seq<Object>): seq<Chat> {
    if contacts == [] then []
    else AllChats(contacts[..|contacts| - 1], fetch) + Listed(EntryOf(contacts[|contacts| - 1], fetch))
  }

  /** The message loop run for each id against its own pages, keeping the messages in range. */
  ghost function Fetcher(messagesOf: Value -> (nat -> PageResult<Object>), inRange: Object -> bool,
                         lastPage: Value -> nat): Value -> seq<Object>
  {
    (v: Value) => Collect(messagesOf(v), inRange, 1, lastPage(v))
  }

  /** The `for` loop of `main` over the contacts. */
  method ImportChats(contacts: seq<Object>, messagesOf: Value -> (nat -> PageResult<Object>), inRange: Object -> bool,
                     ghost lastPage: Value -> nat)
    returns (chats: seq<Chat>)
    requires forall v :: 1 <= lastPage(v) && !Continues(messagesOf(v)(lastPage(v)))
    ensures chats == AllChats(contacts, Fetcher(messagesOf, inRange, lastPage))
  {
    ghost var fetch := Fetcher(messagesOf, inRange, lastPage);
    chats := [];
    for i := 0 to |contacts|
      invariant chats == AllChats(contacts[..i], fetch)
    {
      assert contacts[..i + 1][..i] == contacts[..i];
      var contact := contacts[i];
      var waId := ContactId(contact);
      if Truthy(waId) {
        var messages := Paginate(messagesOf(waId), inRange, lastPage(waId));
        if |messages| > 0 {
          chats := chats + [Chat(waId, ContactName(contact), |messages|, Records(messages))];
        }
      }
    }
    assert contacts[..|contacts|] == contacts;
  }

  /**
   * `main` without its file writes: the contacts, the chats, the message total
   * and the training text.
   */
  method RunImport(contactPages: nat -> PageResult<Object>, ghost contactsLast: nat,
                   messagesOf: Value -> (nat -> PageResult<Object>), inRange: Object -> bool, ghost lastPage: Value -> nat)
    returns (chats: seq<Chat>, total: nat, training: string)
    requires 1 <= contactsLast && !Continues(contactPages(contactsLast))
    requires forall v :: 1 <= lastPage(v) && !Continues(messagesOf(v)(lastPage(v)))
    ensures var contacts := Collect(contactPages, (c: Object) => true, 1, contactsLast);
      && chats == AllChats(contacts, Fetcher(messagesOf, inRange, lastPage))
      && total == FetchedTotal(contacts, Fetcher(messagesOf, inRange, lastPage))
      && training == Training(chats)
  {
    var contacts := Paginate(contactPages, (c: Object) => true, contactsLast);
    chats := ImportChats(contacts, messagesOf, inRange, lastPage);
    total := TotalMessages(chats);
    TotalIsFetched(contacts, Fetcher(messagesOf, inRange, lastPage));
    training := BuildTraining(chats);
  }

  /** `allChats.reduce((sum, c) => sum + c.messageCount, 0)` */
  function TotalMessages(chats: seq<Chat>): nat {
    if chats == [] then 0 else TotalMessages(chats[..|chats| - 1]) + chats[|chats| - 1].messageCount
  }

  /** How many in-range messages the loop fetched over the contacts that have an id. */
  function FetchedTotal(contacts: seq<Object>, fetch: Value -> seq<Object>): nat {
    if contacts == [] then 0
    else
      var c := contacts[|contacts| - 1];
      FetchedTotal(contacts[..|contacts| - 1], fetch) + (if Truthy(ContactId(c)) then |fetch(ContactId(c))| else 0)
  }

  // ---------------------------------------------------------------------------
  // Training text

  function Speaker(r: Record): string {
    if Truthy(r.isOwner) then "Agent" else "Customer"
  }

  function Line(r: Record): string {
    Speaker(r) + ": " + ToText(r.text) + "\n"
  }

  function Header(waId: Value): string {
    "\n--- Conversation with " + ToText(waId) + " ---\n"
  }

  function Lines(rs: seq<Record>): string {
    if rs == [] then "" else Lines(rs[..|rs| - 1]) + Line(rs[|rs| - 1])
  }

  function ChatText(c: Chat): string {
    Header(c.waId) + Lines(c.messages)
  }

  function Training(chats: seq<Chat>): string {
    if chats == [] then "" else Training(chats[..|chats| - 1]) + ChatText(chats[|chats| - 1])
  }

  /** The nested `forEach` that appends a header per chat and a line per message. */
  method BuildTraining(chats: seq<Chat>) returns (text: string)
    ensures text == Training(chats)
  {
    text := "";
    for i := 0 to |chats|
      invariant text == Training(chats[..i])
    {
      var chat := chats[i];
      ghost var before := text;
      text := text + Header(chat.waId);
      ghost var start := text;
      for j := 0 to |chat.messages|
        invariant text == start + Lines(chat.messages[..j])
      {
        LinesSnoc(chat.messages, j);
        Seqs.AppendAssoc(start, Lines(chat.messages[..j]), Line(chat.messages[j]));
        text := text + Line(chat.messages[j]);
      }
      assert chat.messages[..|chat.messages|] == chat.messages;
      Seqs.AppendAssoc(before, Header(chat.waId), Lines(chat.messages));
      TrainingSnoc(chats, i);
    }
    assert chats[..|chats|] == chats;
  }

  lemma LinesSnoc(rs: seq<Record>, j: nat)
    requires j < |rs|
    ensures Lines(rs[..j + 1]) == Lines(rs[..j]) + Line(rs[j])
  {
    assert rs[..j + 1][..j] == rs[..j];
  }

  lemma TrainingSnoc(chats: seq<Chat>, i: nat)
    requires i < |chats|
    ensures Training(chats[..i + 1]) == Training(chats[..i]) + ChatText(chats[i])
  {
    assert chats[..i + 1][..i] == chats[..i];
  }

  // ---------------------------------------------------------------------------
  // Properties

  lemma {:induction false} CollectPastLast<T>(pages: nat -> PageResult<T>, keep: T -> bool, p: nat, last: nat)
    requires p > last
    ensures Collect(pages, keep, p, last) == []
  {
  }

  lemma {:induction false} FilterMembers<T>(s: seq<T>, keep: T -> bool, x: T)
    requires x in Filter(s, keep)
    ensures x in s && keep(x)
  {
    if s != [] {
      if x in Filter(s[..|s| - 1], keep) {
        FilterMembers(s[..|s| - 1], keep, x);
      }
    }
  }

  /** Every gathered item was kept by the filter and came from a page the loop fetched. */
  lemma {:induction false} CollectSound<T>(pages: nat -> PageResult<T>, keep: T -> bool, p: nat, last: nat, x: T)
    requires x in Collect(pages, keep, p, last)
    ensures keep(x) && exists q | p <= q <= last :: x in ItemsOf(pages(q))
    decreases last - p
  {
    var r := pages(p);
    var here := Filter(r.items, keep);
    if x in here {
      FilterMembers(r.items, keep, x);
    } else {
      CollectSound(pages, keep, p + 1, last, x);
    }
  }

  /** The kept items of pages p to s, in page order. */
  function Kept<T>(pages: nat -> PageResult<T>, keep: T -> bool, p: nat, s: nat): seq<T>
    decreases s - p
  {
    if p > s then [] else Filter(ItemsOf(pages(p)), keep) + Kept(pages, keep, p + 1, s)
  }

  /** Pages p to s - 1 are all full. */
  predicate FullFrom<T>(pages: nat -> PageResult<T>, p: nat, s: nat)
    decreases s - p
  {
    p >= s || (Continues(pages(p)) && FullFrom(pages, p + 1, s))
  }

  lemma {:induction false} FullFromAll<T>(pages: nat -> PageResult<T>, p: nat, s: nat)
    requires forall q | p <= q < s :: Continues(pages(q))
    ensures FullFrom(pages, p, s)
    decreases s - p
  {
    if p < s {
      FullFromAll(pages, p + 1, s);
    }
  }

  /**
   * When pages p to s - 1 are full and page s is not, the loop gathers exactly the
   * kept items of pages p to s, in page order, and reads nothing after page s,
   * however far the bound lies beyond it.
   */
  lemma {:induction false} CollectIsKeptPages<T>(pages: nat -> PageResult<T>, keep: T -> bool, p: nat, s: nat, last: nat)
    requires p <= s <= last && !Continues(pages(s))
    requires FullFrom(pages, p, s)
    ensures Collect(pages, keep, p, last) == Kept(pages, keep, p, s)
    decreases s - p
  {
    if p == s {
      CollectAtShortPage(pages, keep, p, last);
    } else {
      CollectAtFullPage(pages, keep, p, last);
      CollectIsKeptPages(pages, keep, p + 1, s, last);
      KeptStep(pages, keep, p, s);
    }
  }

  lemma KeptStep<T>(pages: nat -> PageResult<T>, keep: T -> bool, p: nat, s: nat)
    requires p <= s
    ensures Kept(pages, keep, p, s) == Filter(ItemsOf(pages(p)), keep) + Kept(pages, keep, p + 1, s)
  {
  }

  lemma CollectAtShortPage<T>(pages: nat -> PageResult<T>, keep: T -> bool, p: nat, last: nat)
    requires p <= last && !Continues(pages(p))
    ensures Collect(pages, keep, p, last) == Kept(pages, keep, p, p)
  {
    var r := pages(p);
    var here := Filter(ItemsOf(r), keep);
    assert Kept(pages, keep, p, p) == here + [];
    if r.Failed? || |r.items| == 0 {
      assert here == [];
    } else {
      assert Collect(pages, keep, p, last) == here + [];
    }
  }

  lemma CollectAtFullPage<T>(pages: nat -> PageResult<T>, keep: T -> bool, p: nat, last: nat)
    requires p <= last && Continues(pages(p))
    ensures Collect(pages, keep, p, last) == Filter(ItemsOf(pages(p)), keep) + Collect(pages, keep, p + 1, last)
  {
  }

  /** The loop's outcome does not depend on which ending page bounds it. */
  lemma StopsAtFirstShortPage<T>(pages: nat -> PageResult<T>, keep: T -> bool, s: nat, last: nat)
    requires 1 <= s <= last && !Continues(pages(s)) && forall q | 1 <= q < s :: Continues(pages(q))
    ensures Collect(pages, keep, 1, last) == Collect(pages, keep, 1, s)
  {
    FullFromAll(pages, 1, s);
    CollectIsKeptPages(pages, keep, 1, s, last);
    CollectIsKeptPages(pages, keep, 1, s, s);
  }

  /** Without a filter, as for the contact list, the pages are concatenated as fetched. */
  lemma {:induction false} KeepAll<T>(s: seq<T>)
    ensures Filter(s, (x: T) => true) == s
  {
    if s != [] {
      KeepAll(s[..|s| - 1]);
      assert s[..|s| - 1] + [s[|s| - 1]] == s;
    }
  }

  /** Every chat has an id and at least one message, its count is its number of records, and no contact gives two. */
  lemma {:induction false} ChatsValid(contacts: seq<Object>, fetch: Value -> seq<Object>)
    ensures var chats := AllChats(contacts, fetch);
      && |chats| <= |contacts|
      && forall c | c in chats :: Truthy(c.waId) && c.messageCount == |c.messages| > 0
  {
    if contacts != [] {
      ChatsValid(contacts[..|contacts| - 1], fetch);
    }
  }

  /** Every chat is the entry of some contact. */
  lemma {:induction false} ChatHasContact(contacts: seq<Object>, fetch: Value -> seq<Object>, c: Chat)
    requires c in AllChats(contacts, fetch)
    ensures exists k | 0 <= k < |contacts| :: EntryOf(contacts[k], fetch) == Some(c)
  {
    var n := |contacts| - 1;
    var init := contacts[..n];
    if c in AllChats(init, fetch) {
      ChatHasContact(init, fetch, c);
      var k :| 0 <= k < |init| && EntryOf(init[k], fetch) == Some(c);
      assert init[k] == contacts[k];
    } else {
      assert EntryOf(contacts[n], fetch) == Some(c);
    }
  }

  /** Every contact with an id and messages in range gives a chat. */
  lemma {:induction false} ContactHasChat(contacts: seq<Object>, fetch: Value -> seq<Object>, k: nat)
    requires k < |contacts| && EntryOf(contacts[k], fetch).Some?
    ensures EntryOf(contacts[k], fetch).value in AllChats(contacts, fetch)
  {
    var n := |contacts| - 1;
    var init := contacts[..n];
    if k < n {
      assert init[k] == contacts[k];
      ContactHasChat(init, fetch, k);
    }
  }

  /** A chat's records are its messages, normalised, in order. */
  lemma ChatRecords(contact: Object, messages: seq<Object>)
    ensures var c := ChatFor(contact, messages);
      c.Some? <==> Truthy(ContactId(contact)) && |messages| > 0
    ensures var c := ChatFor(contact, messages);
      c.Some? ==>
        && c.value.waId == ContactId(contact) && |c.value.messages| == |messages|
        && forall i | 0 <= i < |messages| :: c.value.messages[i] == Normalise(messages[i])
  {
  }

  /**
   * A record's id and text follow their alias order, ownership defaults to false
   * and the type to 'text'.
   */
  lemma NormaliseDefaults(m: Object)
    ensures var r := Normalise(m);
      && (Truthy(Get(m, "id")) ==> r.id == Get(m, "id"))
      && (!Truthy(Get(m, "id")) ==> r.id == Get(m, "whatsappMessageId"))
      && (Truthy(Get(m, "text")) ==> r.text == Get(m, "text"))
      && (r.isOwner == Bool(false) <==> !Truthy(Get(m, "owner")) && !Truthy(Get(m, "isOwner")))
      && (Truthy(r.isOwner) <==> Truthy(Get(m, "owner")) || Truthy(Get(m, "isOwner")))
      && (r.kind == Str("text") <==> !Truthy(Get(m, "type")) || Get(m, "type") == Str("text"))
  {
  }

  /** The message total is the number of in-range messages fetched for the contacts with an id. */
  lemma {:induction false} TotalIsFetched(contacts: seq<Object>, fetch: Value -> seq<Object>)
    ensures TotalMessages(AllChats(contacts, fetch)) == FetchedTotal(contacts, fetch)
  {
    if contacts != [] {
      var init := contacts[..|contacts| - 1];
      TotalIsFetched(init, fetch);
      TotalAppend(AllChats(init, fetch), Listed(EntryOf(contacts[|contacts| - 1], fetch)));
    }
  }

  lemma {:induction false} TotalAppend(a: seq<Chat>, b: seq<Chat>)
    requires |b| <= 1
    ensures TotalMessages(a + b) == TotalMessages(a) + TotalMessages(b)
  {
    if b != [] {
      assert (a + b)[..|a + b| - 1] == a;
      assert b[..0] == [];
    } else {
      assert a + b == a;
    }
  }

  /** The training text of several chats is theirs one after the other. */
  lemma {:induction false} TrainingAppend(a: seq<Chat>, b: seq<Chat>)
    ensures Training(a + b) == Training(a) + Training(b)
    decreases |b|
  {
    if b == [] {
      assert a + b == a;
    } else {
      var init, last := b[..|b| - 1], b[|b| - 1];
      var ab := a + b;
      assert ab[..|ab| - 1] == a + init && ab[|ab| - 1] == last;
      assert Training(ab) == Training(a + init) + ChatText(last);
      TrainingAppend(a, init);
      Seqs.AppendAssoc(Training(a), Training(init), ChatText(last));
    }
  }

  /** The lines of a chat are its messages' lines, one after the other, each naming its speaker. */
  lemma {:induction false} LinesAppend(a: seq<Record>, b: seq<Record>)
    ensures Lines(a + b) == Lines(a) + Lines(b)
    decreases |b|
  {
    if b == [] {
      assert a + b == a;
    } else {
      var init, last := b[..|b| - 1], b[|b| - 1];
      var ab := a + b;
      assert ab[..|ab| - 1] == a + init && ab[|ab| - 1] == last;
      assert Lines(ab) == Lines(a + init) + Line(last);
      LinesAppend(a, init);
      Seqs.AppendAssoc(Lines(a), Lines(init), Line(last));
    }
  }

  lemma SpeakerLine(r: Record)
    ensures var l := Line(r);
      && (Truthy(r.isOwner) ==> l == "Agent: " + ToText(r.text) + "\n")
      && (!Truthy(r.isOwner) ==> l == "Customer: " + ToText(r.text) + "\n")
  {
  }
}
