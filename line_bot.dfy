/**
 * The LINE webhook handler of the Bursai bot (`handleEvent` in index.js).
 * A text message is trimmed and matched against two Thai commands:
 * "ลงทะเบียน" (register) stores the sender's LINE profile in the `users`
 * collection, "เช็คอิน" (check in) appends a WAITING entry to the `queues`
 * collection; any other text gets a help reply. The two Firestore collections
 * are held in memory: `users` as a map keyed by LINE user id, `queues` as the
 * sequence of documents in the order they were added.
 */
module LineBot {
  import opened Wrappers
  import opened JsString

  type UserId = string

  /** `new Date()`, treated as an opaque value supplied by the caller. */
  type Timestamp = int

  /** What the LINE client's `getProfile` returns for the sender. */
  datatype Profile = Profile(displayName: string, pictureUrl: string)

  /** A document of the `users` collection. */
  datatype UserRecord = UserRecord(displayName: string, pictureUrl: string, registeredAt: Timestamp)

  /** The `status` field of a queue document. This handler only ever writes
      WAITING; other parts of the system may write other values. */
  datatype Status = Waiting | Serving | OtherStatus(name: OtherStatusName)

  /** A status string other than the two the handler's queries look for. */
  type OtherStatusName = name: string | name != "WAITING" && name != "SERVING" witness "FINISHED"

  /** A document of the `queues` collection. */
  datatype QueueEntry = QueueEntry(
    lineUserId: UserId,
    displayName: string,
    pictureUrl: string,
    queueNumber: int,
    status: Status,
    checkInTime: Timestamp)

  datatype Message = TextMessage(text: string) | NonTextMessage

  /** A webhook event: a message event, or any other event type. */
  datatype Event =
    | MessageEvent(replyToken: string, userId: UserId, message: Message)
    | OtherEvent

  /** The text message the bot sends back through `replyMessage`. */
  datatype ReplyMessage =
    | AlreadyRegistered
    | Registered(displayName: string)
    | RegisterFirst
    | AlreadyWaiting(queueNumber: int)
    | CheckedIn(queueNumber: int)
    | Help

  datatype Reply = Reply(replyToken: string, message: ReplyMessage)

  /** Both collections at one moment. */
  datatype Store = Store(users: map<UserId, UserRecord>, queues: seq<QueueEntry>)

  /** What handling one event produces: the reply (None for the `null` the
      handler resolves to) and the collections afterwards. */
  datatype Outcome = Outcome(reply: Option<Reply>, store: Store)

  const RegisterKeyword: string := "ลงทะเบียน"
  const CheckInKeyword: string := "เช็คอิน"

  datatype Command = RegisterCommand | CheckInCommand | UnknownCommand

  /** The words of each reply, with the values they interpolate. The welcome
      ends with the display name, and a queue-number reply ends, after a
      space, with the number in decimal. */
  function Text(m: ReplyMessage): (r: string)
    ensures m.Registered? ==>
      |m.displayName| < |r| && r[|r| - |m.displayName|..] == m.displayName &&
      r[|r| - |m.displayName| - 1] == ' '
    ensures (m.AlreadyWaiting? || m.CheckedIn?) ==>
      var d := IntToDecimal(m.queueNumber);
      |d| < |r| && r[|r| - |d|..] == d && r[|r| - |d| - 1] == ' '
  {
    match m
    case AlreadyRegistered => "คุณได้ลงทะเบียนไว้แล้วครับ"
    case Registered(name) => "ลงทะเบียนสำเร็จ! ยินดีต้อนรับคุณ " + name
    case RegisterFirst => "กรุณาพิมพ์ \"ลงทะเบียน\" ก่อนทำการเช็คอินครับ"
    case AlreadyWaiting(n) => "คุณมีคิวที่รออยู่แล้ว หมายเลขคิวของคุณคือ " + IntToDecimal(n)
    case CheckedIn(n) => "เช็คอินสำเร็จ! คุณได้รับคิวที่ " + IntToDecimal(n)
    case Help => "สวัสดีครับ กรุณาพิมพ์ \"ลงทะเบียน\" เพื่อสมัครสมาชิก หรือ \"เช็คอิน\" เพื่อรับคิวครับ"
  }

  predicate IsDigit(c: char) {
    '0' <= c <= '9'
  }

  predicate AllDigits(d: string) {
    forall i :: 0 <= i < |d| ==> IsDigit(d[i])
  }

  /** The number a string of decimal digits denotes. */
  function DecimalValue(d: string): nat
    requires AllDigits(d)
  {
    if d == [] then 0 else DecimalValue(d[..|d| - 1]) * 10 + (d[|d| - 1] as int - '0' as int)
  }

  /** A number written in decimal, as a template literal shows it: digits
      only, no leading zero, reading back to the number. */
  function NatToDecimal(n: nat): (r: string)
    ensures |r| >= 1 && AllDigits(r)
    ensures r[0] != '0' || r == "0"
    ensures DecimalValue(r) == n
    decreases n
  {
    var digit := ['0' + (n % 10) as char];
    if n < 10 then digit
    else
      var r := NatToDecimal(n / 10) + digit;
      assert r[..|r| - 1] == NatToDecimal(n / 10);
      r
  }

  function IntToDecimal(n: int): (r: string)
    ensures n >= 0 ==> AllDigits(r) && DecimalValue(r) == n
    ensures n < 0 ==> |r| >= 2 && r[0] == '-' && AllDigits(r[1..]) && DecimalValue(r[1..]) == -n
  {
    if n < 0 then
      var r := "-" + NatToDecimal(-n);
      assert r[1..] == NatToDecimal(-n);
      r
    else NatToDecimal(n)
  }

  /** The command a text selects: its trimmed, lower-cased form compared with
      each keyword. Lower-casing cannot matter, as the keywords are Thai. */
  function ParseCommand(text: string): (c: Command)
    ensures c == RegisterCommand <==> Trim(text) == RegisterKeyword
    ensures c == CheckInCommand <==> Trim(text) == CheckInKeyword
  {
    var t := Trim(text);
    LowerEqualsCaselessKeyword(t, RegisterKeyword);
    LowerEqualsCaselessKeyword(t, CheckInKeyword);
    if ToLower(t) == RegisterKeyword then RegisterCommand
    else if ToLower(t) == CheckInKeyword then CheckInCommand
    else UnknownCommand
  }

  predicate IsActive(e: QueueEntry) {
    e.status == Waiting || e.status == Serving
  }

  predicate IsWaitingFor(e: QueueEntry, uid: UserId) {
    e.lineUserId == uid && e.status == Waiting
  }

  /** The size of the query `status in ['WAITING', 'SERVING']`. */
  function ActiveCount(q: seq<QueueEntry>): (n: nat)
    ensures n <= |q|
    ensures n == |q| <==> forall i :: 0 <= i < |q| ==> IsActive(q[i])
    ensures n == 0 <==> forall i :: 0 <= i < |q| ==> !IsActive(q[i])
  {
    if q == [] then 0
    else ActiveCount(q[..|q| - 1]) + if IsActive(q[|q| - 1]) then 1 else 0
  }

  /** The first document of the query `lineUserId == uid && status == 'WAITING'`,
      or None when it is empty. */
  function FirstWaitingOf(q: seq<QueueEntry>, uid: UserId): (r: Option<QueueEntry>)
    ensures r.Some? ==> r.value in q && IsWaitingFor(r.value, uid)
    ensures r.None? <==> forall i :: 0 <= i < |q| ==> !IsWaitingFor(q[i], uid)
  {
    if q == [] then None
    else if IsWaitingFor(q[0], uid) then Some(q[0])
    else FirstWaitingOf(q[1..], uid)
  }

  /** handleEvent, one event at a time, over the collections `s`. `profile` is
      what `getProfile` would return for the sender and `now` the time stamp. */
  function Handle(s: Store, e: Event, profile: Profile, now: Timestamp): (o: Outcome)
    ensures o.reply.None? <==> !(e.MessageEvent? && e.message.TextMessage?)
    ensures o.reply.Some? ==> o.reply.value.replyToken == e.replyToken
    ensures s.users.Keys <= o.store.users.Keys
    ensures forall u :: u in s.users ==> o.store.users[u] == s.users[u]
    ensures |s.queues| <= |o.store.queues| <= |s.queues| + 1
    ensures o.store.queues[..|s.queues|] == s.queues
  {
    if !(e.MessageEvent? && e.message.TextMessage?) then Outcome(None, s)
    else
      var uid := e.userId;
      var answer := (m: ReplyMessage) => Some(Reply(e.replyToken, m));
      match ParseCommand(e.message.text)
      case RegisterCommand =>
        if uid in s.users then Outcome(answer(AlreadyRegistered), s)
        else
          var record := UserRecord(profile.displayName, profile.pictureUrl, now);
          Outcome(answer(Registered(profile.displayName)), s.(users := s.users[uid := record]))
      case CheckInCommand =>
        if uid !in s.users then Outcome(answer(RegisterFirst), s)
        else (
          match FirstWaitingOf(s.queues, uid)
          case Some(w) => Outcome(answer(AlreadyWaiting(w.queueNumber)), s)
          case None =>
            var user := s.users[uid];
            var n := ActiveCount(s.queues) + 1;
            var entry := QueueEntry(uid, user.displayName, user.pictureUrl, n, Waiting, now);
            Outcome(answer(CheckedIn(n)), s.(queues := s.queues + [entry])))
      case UnknownCommand => Outcome(answer(Help), s)
  }

  // ---------------------------------------------------------------------
  // What each branch of the handler does

  /** Events other than text messages resolve to null and touch nothing. */
  lemma NonTextEventIgnored(s: Store, e: Event, profile: Profile, now: Timestamp)
    requires !(e.MessageEvent? && e.message.TextMessage?)
    ensures Handle(s, e, profile, now) == Outcome(None, s)
  {
  }

  /** A text that is neither keyword once trimmed gets the help reply and
      touches nothing. */
  lemma OtherTextGetsHelp(s: Store, e: Event, profile: Profile, now: Timestamp)
    requires e.MessageEvent? && e.message.TextMessage?
    requires Trim(e.message.text) != RegisterKeyword && Trim(e.message.text) != CheckInKeyword
    ensures Handle(s, e, profile, now) == Outcome(Some(Reply(e.replyToken, Help)), s)
  {
  }

  predicate IsCommand(e: Event, keyword: string) {
    e.MessageEvent? && e.message.TextMessage? && Trim(e.message.text) == keyword
  }

  /** Registering again is answered "already registered" and changes nothing. */
  lemma RegisterWhenRegistered(s: Store, e: Event, profile: Profile, now: Timestamp)
    requires IsCommand(e, RegisterKeyword) && e.userId in s.users
    ensures Handle(s, e, profile, now) == Outcome(Some(Reply(e.replyToken, AlreadyRegistered)), s)
  {
  }

  /** A first registration adds exactly the sender, with the name and picture
      of their LINE profile, and greets them by that name. */
  lemma RegisterNewUser(s: Store, e: Event, profile: Profile, now: Timestamp)
    requires IsCommand(e, RegisterKeyword) && e.userId !in s.users
    ensures var o := Handle(s, e, profile, now);
      o.reply == Some(Reply(e.replyToken, Registered(profile.displayName))) &&
      o.store.users.Keys == s.users.Keys + {e.userId} &&
      o.store.users[e.userId] == UserRecord(profile.displayName, profile.pictureUrl, now) &&
      o.store.queues == s.queues
  {
  }

  /** Registration is idempotent: a second identical request leaves the
      collections as the first one left them. */
  lemma RegisterIdempotent(s: Store, e: Event, profile: Profile, now: Timestamp, profile': Profile, now': Timestamp)
    requires IsCommand(e, RegisterKeyword)
    ensures var once := Handle(s, e, profile, now).store;
      Handle(once, e, profile', now').store == once
  {
  }

  /** Checking in before registering is refused and adds no entry. */
  lemma CheckInUnregistered(s: Store, e: Event, profile: Profile, now: Timestamp)
    requires IsCommand(e, CheckInKeyword) && e.userId !in s.users
    ensures Handle(s, e, profile, now) == Outcome(Some(Reply(e.replyToken, RegisterFirst)), s)
  {
  }

  /** A sender who already has a WAITING entry is told that entry's number,
      and nothing is added. */
  lemma CheckInWhileWaiting(s: Store, e: Event, profile: Profile, now: Timestamp, i: nat)
    requires IsCommand(e, CheckInKeyword) && e.userId in s.users
    requires i < |s.queues| && IsWaitingFor(s.queues[i], e.userId)
    requires OneWaitingPerUser(s.queues)
    ensures Handle(s, e, profile, now)
      == Outcome(Some(Reply(e.replyToken, AlreadyWaiting(s.queues[i].queueNumber))), s)
  {
    var w := FirstWaitingOf(s.queues, e.userId);
    assert w.Some?;
    var j :| 0 <= j < |s.queues| && s.queues[j] == w.value;
    assert j == i;
  }

  /** A registered sender without a WAITING entry gets exactly one new entry,
      appended last: WAITING, numbered one past the WAITING and SERVING
      entries, with the name and picture of the stored user record. The reply
      carries the same number. */
  lemma CheckInNew(s: Store, e: Event, profile: Profile, now: Timestamp)
    requires IsCommand(e, CheckInKeyword) && e.userId in s.users
    requires forall i :: 0 <= i < |s.queues| ==> !IsWaitingFor(s.queues[i], e.userId)
    ensures var o := Handle(s, e, profile, now);
      var n := ActiveCount(s.queues) + 1;
      var user := s.users[e.userId];
      o.reply == Some(Reply(e.replyToken, CheckedIn(n))) &&
      o.store.users == s.users &&
      o.store.queues == s.queues + [QueueEntry(e.userId, user.displayName, user.pictureUrl, n, Waiting, now)]
  {
  }

  // ---------------------------------------------------------------------
  // The invariant of the collections under this handler alone

  predicate AllWaiting(q: seq<QueueEntry>) {
    forall i :: 0 <= i < |q| ==> q[i].status == Waiting
  }

  /** The entries are numbered 1..n in the order they were added. */
  predicate NumberedInOrder(q: seq<QueueEntry>) {
    forall i :: 0 <= i < |q| ==> q[i].queueNumber == i + 1
  }

  predicate OneWaitingPerUser(q: seq<QueueEntry>) {
    forall i, j :: 0 <= i < j < |q| && q[i].status == Waiting && q[j].status == Waiting ==>
      q[i].lineUserId != q[j].lineUserId
  }

  predicate EntriesRegistered(s: Store) {
    forall i :: 0 <= i < |s.queues| ==> s.queues[i].lineUserId in s.users
  }

  predicate Inv(s: Store) {
    AllWaiting(s.queues) && NumberedInOrder(s.queues) &&
    OneWaitingPerUser(s.queues) && EntriesRegistered(s)
  }

  const EmptyStore := Store(map[], [])

  /** Handling any event keeps the invariant. */
  lemma HandlePreservesInv(s: Store, e: Event, profile: Profile, now: Timestamp)
    requires Inv(s)
    ensures Inv(Handle(s, e, profile, now).store)
  {
    var o := Handle(s, e, profile, now);
    if |o.store.queues| != |s.queues| {
      assert IsCommand(e, CheckInKeyword) && e.userId in s.users;
      assert FirstWaitingOf(s.queues, e.userId).None?;
      var q := o.store.queues;
      var last := |s.queues|;
      assert q[last].status == Waiting && q[last].lineUserId == e.userId;
      assert ActiveCount(s.queues) == last;
      assert forall i :: 0 <= i < last ==> q[i] == s.queues[i];
    }
  }

  datatype Input = Input(event: Event, profile: Profile, now: Timestamp)

  /** The collections after handling `inputs` one after the other. */
  function Run(s: Store, inputs: seq<Input>): Store
    decreases |inputs|
  {
    if inputs == [] then s
    else Run(Handle(s, inputs[0].event, inputs[0].profile, inputs[0].now).store, inputs[1..])
  }

  lemma {:induction false} RunPreservesInv(s: Store, inputs: seq<Input>)
    requires Inv(s)
    ensures Inv(Run(s, inputs))
    decreases |inputs|
  {
    if inputs != [] {
      HandlePreservesInv(s, inputs[0].event, inputs[0].profile, inputs[0].now);
      RunPreservesInv(Handle(s, inputs[0].event, inputs[0].profile, inputs[0].now).store, inputs[1..]);
    }
  }

  /** From empty collections, whatever the events: every entry is WAITING and
      belongs to a registered user, entry k carries queue number k, and no
      user has two WAITING entries. */
  lemma Reachable(inputs: seq<Input>)
    ensures var s := Run(EmptyStore, inputs);
      AllWaiting(s.queues) && NumberedInOrder(s.queues) &&
      OneWaitingPerUser(s.queues) && EntriesRegistered(s)
  {
    RunPreservesInv(EmptyStore, inputs);
  }

  /** Under the invariant a second check-in right after a successful one is
      answered with the number just given, and adds nothing. */
  lemma CheckInTwice(s: Store, e: Event, profile: Profile, now: Timestamp, profile': Profile, now': Timestamp)
    requires Inv(s)
    requires IsCommand(e, CheckInKeyword)
    ensures var first := Handle(s, e, profile, now);
      var second := Handle(first.store, e, profile', now');
      first.reply.value.message.CheckedIn? ==>
        second == Outcome(Some(Reply(e.replyToken, AlreadyWaiting(first.reply.value.message.queueNumber))), first.store)
  {
    var first := Handle(s, e, profile, now);
    if first.reply.value.message.CheckedIn? {
      HandlePreservesInv(s, e, profile, now);
      var q := first.store.queues;
      CheckInWhileWaiting(first.store, e, profile', now', |q| - 1);
    }
  }

  /** With every entry but `k` active and `k` not, the active count is one
      short of the number of entries. */
  lemma {:induction false} ActiveCountAllButOne(q: seq<QueueEntry>, k: nat)
    requires k < |q| && !IsActive(q[k])
    requires forall i :: 0 <= i < |q| && i != k ==> IsActive(q[i])
    ensures ActiveCount(q) == |q| - 1
  {
    var p := q[..|q| - 1];
    if k == |q| - 1 {
      assert forall i :: 0 <= i < |p| ==> IsActive(p[i]);
    } else {
      ActiveCountAllButOne(p, k);
    }
  }

  /** Numbering counts only WAITING and SERVING entries. In a queue numbered
      1..n where some entry has left those statuses (written elsewhere in the
      system), the next check-in is handed a number an existing entry
      already holds; when exactly one entry has left and the rest are
      WAITING, it is the number of the last entry, which is still WAITING. */
  lemma NumberReusedAfterStatusChange(s: Store, e: Event, profile: Profile, now: Timestamp, k: nat)
    requires IsCommand(e, CheckInKeyword) && e.userId in s.users
    requires forall i :: 0 <= i < |s.queues| ==> !IsWaitingFor(s.queues[i], e.userId)
    requires NumberedInOrder(s.queues)
    requires k < |s.queues| && !IsActive(s.queues[k])
    ensures var n := Handle(s, e, profile, now).reply.value.message.queueNumber;
      1 <= n <= |s.queues| && s.queues[n - 1].queueNumber == n
    ensures (forall i :: 0 <= i < |s.queues| && i != k ==> s.queues[i].status == Waiting) && k < |s.queues| - 1 ==>
      var q := Handle(s, e, profile, now).store.queues;
      q[|q| - 1].queueNumber == q[|q| - 2].queueNumber && q[|q| - 2].status == Waiting
  {
    CheckInNew(s, e, profile, now);
    if forall i :: 0 <= i < |s.queues| && i != k ==> s.queues[i].status == Waiting {
      ActiveCountAllButOne(s.queues, k);
    }
  }

  // ---------------------------------------------------------------------
  // The two Firestore queries, as loops over the collection

  /** `where('lineUserId', '==', uid).where('status', '==', 'WAITING')`,
      first document. */
  method QueryWaitingOf(q: seq<QueueEntry>, uid: UserId) returns (r: Option<QueueEntry>)
    ensures r == FirstWaitingOf(q, uid)
  {
    var i := 0;
    while i < |q|
      invariant 0 <= i <= |q|
      invariant FirstWaitingOf(q[i..], uid) == FirstWaitingOf(q, uid)
    {
      if IsWaitingFor(q[i], uid) {
        return Some(q[i]);
      }
      assert q[i..][1..] == q[i + 1..];
      i := i + 1;
    }
    return None;
  }

  /** `where('status', 'in', ['WAITING', 'SERVING'])`, its size. */
  method CountActive(q: seq<QueueEntry>) returns (n: nat)
    ensures n == ActiveCount(q)
  {
    n := 0;
    var i := 0;
    while i < |q|
      invariant 0 <= i <= |q|
      invariant n == ActiveCount(q[..i])
    {
      assert q[..i + 1][..i] == q[..i];
      if IsActive(q[i]) {
        n := n + 1;
      }
      i := i + 1;
    }
    assert q[..|q|] == q;
  }

  // ---------------------------------------------------------------------
  // The collections as mutable state

  class BotStores {
    var users: map<UserId, UserRecord>
    var queues: seq<QueueEntry>

    function Snapshot(): Store
      reads this
    {
      Store(users, queues)
    }

    constructor ()
      ensures Snapshot() == EmptyStore
    {
      users := map[];
      queues := [];
    }

    /** handleEvent: reads and writes the collections in place and returns
        the reply it sends (None for `null`). */
    method HandleEvent(e: Event, profile: Profile, now: Timestamp) returns (reply: Option<Reply>)
      modifies this
      ensures Outcome(reply, Snapshot()) == Handle(old(Snapshot()), e, profile, now)
      ensures old(Inv(Snapshot())) ==> Inv(Snapshot())
    {
      ghost var before := Snapshot();
      if Inv(before) {
        HandlePreservesInv(before, e, profile, now);
      }
      if !(e.MessageEvent? && e.message.TextMessage?) {
        return None;
      }
      var uid := e.userId;
      var messageText := Trim(e.message.text);
      if ToLower(messageText) == RegisterKeyword {
        if uid in users {
          return Some(Reply(e.replyToken, AlreadyRegistered));
        }
        users := users[uid := UserRecord(profile.displayName, profile.pictureUrl, now)];
        return Some(Reply(e.replyToken, Registered(profile.displayName)));
      }
      if ToLower(messageText) == CheckInKeyword {
        if uid !in users {
          return Some(Reply(e.replyToken, RegisterFirst));
        }
        var waiting := QueryWaitingOf(queues, uid);
        if waiting.Some? {
          return Some(Reply(e.replyToken, AlreadyWaiting(waiting.value.queueNumber)));
        }
        var user := users[uid];
        var active := CountActive(queues);
        var newQueueNumber := active + 1;
        queues := queues + [QueueEntry(uid, user.displayName, user.pictureUrl, newQueueNumber, Waiting, now)];
        return Some(Reply(e.replyToken, CheckedIn(newQueueNumber)));
      }
      return Some(Reply(e.replyToken, Help));
    }
  }
}
