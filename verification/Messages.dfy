/** What travels through Kafka: messages of outbox rows, the records made of them, and what is read from the records. */
module Messages {
  import opened Records

  /** Header values are numbered; None is the empty value. */
  datatype Header = Header(key: string, value: Option<int>)

  /** What is handed to the publisher. */
  datatype Message = Message(key: int, headers: map<string, int>, payload: Event)

  /** A record of the topic. */
  datatype TopicRecord = TopicRecord(key: int, headers: seq<Header>, payload: Event)

  const EVENT_ID := "event_id"
  const EVENT_TYPE := "event_type"

  /** The number of the event type "entry.posted". */
  const ENTRY_POSTED := 1

  /** The message of an outbox row: under its partition key, with two headers. */
  function MessageOf(e: Event): Message {
    Message(e.account, map[EVENT_ID := e.id, EVENT_TYPE := ENTRY_POSTED], e)
  }

  // ---------------------------------------------------------------- headers

  /** The value of the last header named event_id. */
  function EventIdIn(headers: seq<Header>): (id: Option<int>)
    ensures (forall h :: h in headers ==> h.key != EVENT_ID) ==> id == None
  {
    if headers == [] then None
    else if headers[|headers| - 1].key == EVENT_ID then headers[|headers| - 1].value
    else EventIdIn(headers[..|headers| - 1])
  }

  /** Whatever other headers there are, the last event_id counts. */
  lemma {:induction false} LastEventIdIsFound(headers: seq<Header>, i: nat)
    requires i < |headers| && headers[i].key == EVENT_ID
    requires forall k :: i < k < |headers| ==> headers[k].key != EVENT_ID
    ensures EventIdIn(headers) == headers[i].value
  {
    if i < |headers| - 1 {
      LastEventIdIsFound(headers[..|headers| - 1], i);
    }
  }

  /** The list holds each header of the map once, in some order. */
  ghost predicate Lists(list: seq<Header>, headers: map<string, int>) {
    && (forall i :: 0 <= i < |list| ==> list[i].key in headers && list[i].value == Some(headers[list[i].key]))
    && (forall i, j :: 0 <= i < j < |list| ==> list[i].key != list[j].key)
    && (forall k :: k in headers ==> exists i :: 0 <= i < |list| && list[i].key == k)
  }

  /** The record carries the message. */
  ghost predicate Carries(r: TopicRecord, m: Message) {
    r.key == m.key && r.payload == m.payload && Lists(r.headers, m.headers)
  }

  /** Ranging over a map has no fixed order. */
  method HeadersOf(headers: map<string, int>) returns (list: seq<Header>)
    ensures Lists(list, headers)
  {
    list := [];
    var left := headers.Keys;
    while left != {}
      invariant left <= headers.Keys
      invariant forall i :: 0 <= i < |list| ==>
        list[i].key in headers && list[i].key !in left && list[i].value == Some(headers[list[i].key])
      invariant forall i, j :: 0 <= i < j < |list| ==> list[i].key != list[j].key
      invariant forall k :: k in headers && k !in left ==> exists i :: 0 <= i < |list| && list[i].key == k
      decreases left
    {
      var k :| k in left;
      ghost var shorter := list;
      list := list + [Header(k, Some(headers[k]))];
      left := left - {k};
      assert list[|shorter|].key == k;
      forall x | x in headers && x !in left ensures exists i :: 0 <= i < |list| && list[i].key == x {
        if x != k {
          var i :| 0 <= i < |shorter| && shorter[i].key == x;
          assert list[i].key == x;
        }
      }
    }
  }

  /** The producer's records of a batch of messages. */
  method NewRecords(messages: seq<Message>) returns (records: seq<TopicRecord>)
    ensures |records| == |messages| && forall i :: 0 <= i < |messages| ==> Carries(records[i], messages[i])
  {
    records := [];
    for i := 0 to |messages|
      invariant |records| == i && forall k :: 0 <= k < i ==> Carries(records[k], messages[k])
    {
      var headers := HeadersOf(messages[i].headers);
      records := records + [TopicRecord(messages[i].key, headers, messages[i].payload)];
    }
  }

  /** The record tells of the row: it has the account as its key, and consumers find the id of the row in it. */
  ghost predicate TellsOf(r: TopicRecord, e: Event) {
    r.key == e.account && EventIdIn(r.headers) == Some(e.id) && r.payload == e
  }

  /** The relay's messages have their headers in no fixed order; the event id is found in any. */
  lemma RecordTellsOfRow(r: TopicRecord, e: Event)
    requires Carries(r, MessageOf(e))
    ensures TellsOf(r, e)
  {
    assert EVENT_ID in MessageOf(e).headers;
    var i :| 0 <= i < |r.headers| && r.headers[i].key == EVENT_ID;
    LastEventIdIsFound(r.headers, i);
  }

  // ---------------------------------------------------------------- keys

  /** The rows whose messages have the key. */
  function OfKey(rows: seq<Event>, key: int): seq<Event> {
    if rows == [] then []
    else
      var last := rows[|rows| - 1];
      OfKey(rows[..|rows| - 1], key) + if MessageOf(last).key == key then [last] else []
  }

  /** The records that have the key. */
  function RecordsOfKey(records: seq<TopicRecord>, key: int): seq<TopicRecord> {
    if records == [] then []
    else
      var last := records[|records| - 1];
      RecordsOfKey(records[..|records| - 1], key) + if last.key == key then [last] else []
  }

  function Payloads(records: seq<TopicRecord>): seq<Event> {
    seq(|records|, i requires 0 <= i < |records| => records[i].payload)
  }

  /** All rows of an account, and no others, go under one key. */
  lemma {:induction false} KeysAreAccounts(rows: seq<Event>, account: int)
    ensures OfKey(rows, account) == OfAccount(rows, account)
  {
    if rows != [] { KeysAreAccounts(rows[..|rows| - 1], account); }
  }

  lemma {:induction false} PayloadsOfKey(records: seq<TopicRecord>, account: int)
    requires forall r :: r in records ==> r.key == r.payload.account
    ensures Payloads(RecordsOfKey(records, account)) == OfAccount(Payloads(records), account)
  {
    if records != [] {
      var rest := records[..|records| - 1];
      PayloadsOfKey(rest, account);
      assert Payloads(records)[..|records| - 1] == Payloads(rest);
    }
  }

  lemma {:induction false} RecordsOfKeyConcat(a: seq<TopicRecord>, b: seq<TopicRecord>, key: int)
    ensures RecordsOfKey(a + b, key) == RecordsOfKey(a, key) + RecordsOfKey(b, key)
  {
    if b == [] {
      assert a + b == a;
    } else {
      assert (a + b)[..|a + b| - 1] == a + b[..|b| - 1];
      RecordsOfKeyConcat(a, b[..|b| - 1], key);
    }
  }
}
