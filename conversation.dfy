/**
 * The per-user conversation store: a process-wide map from a cleaned phone
 * number to that user's ordered message log. A log starts with the system
 * message; every `addMessage` appends one turn and, when the log grows past
 * `maxHistoryLength + 1` entries, keeps the system message and the last
 * `maxHistoryLength` turns.
 */
module ConversationService {
  import opened Wrappers
  import opened Strings
  import Config

  datatype Role = System | User | Assistant

  /** The roles `addMessage` accepts. */
  type Speaker = r: Role | r != System witness User

  /** One part of a multi-part message: a text segment or an inlined image reference. */
  datatype ContentPart = TextPart(text: string) | ImageUrlPart(url: string)

  /** Message content: plain text or a list of parts. */
  datatype Content = Text(text: string) | Parts(parts: seq<ContentPart>)

  /** A message; the timestamp is the clock reading at `addMessage`, absent on the system message. */
  datatype Message = Message(role: Role, content: Content, timestamp: Option<nat>)

  type Log = seq<Message>
  type History = map<string, Log>

  /** The message every conversation starts with. */
  function SystemEntry(systemMessage: string): Message {
    Message(System, Text(systemMessage), None)
  }

  /**
   * The invariant of one user's log: it starts with the system message, holds
   * no other system message, and has at most `maxHistoryLength + 1` entries.
   */
  ghost predicate WellFormedLog(log: Log, systemMessage: string, maxHistoryLength: nat) {
    && 1 <= |log| <= maxHistoryLength + 1
    && log[0] == SystemEntry(systemMessage)
    && forall i :: 1 <= i < |log| ==> log[i].role != System
  }

  ghost predicate WellFormedHistory(h: History, systemMessage: string, maxHistoryLength: nat) {
    forall k :: k in h ==> WellFormedLog(h[k], systemMessage, maxHistoryLength)
  }

  /** `initConversation` on the map: a missing user gets a log holding only the system message. */
  function Initialized(h: History, phoneNumber: string, systemMessage: string): (r: History)
    ensures r.Keys == h.Keys + {phoneNumber}
    ensures forall u :: u in h ==> r[u] == h[u]
    ensures phoneNumber !in h ==> r[phoneNumber] == [SystemEntry(systemMessage)]
  {
    if phoneNumber in h then h else h[phoneNumber := [SystemEntry(systemMessage)]]
  }

  /**
   * `Array.prototype.slice(-k)` for `k >= 0`: the last `k` entries, and the
   * whole array when `k` exceeds its length or when `k` is 0 (since `-0` is `0`).
   */
  function SliceFromEnd(s: Log, k: nat): (r: Log)
    ensures k == 0 ==> r == s
    ensures 0 < k ==> |r| == if k < |s| then k else |s|
    ensures r == s[|s| - |r|..]
  {
    if k == 0 || k >= |s| then s else s[|s| - k..]
  }

  /** One `addMessage` on a log: push the message, then truncate to the system message and the last turns. */
  function Appended(log: Log, m: Message, maxHistoryLength: nat): Log {
    var grown := log + [m];
    if |grown| > maxHistoryLength + 1 then [grown[0]] + SliceFromEnd(grown, maxHistoryLength)
    else grown
  }

  /** `addMessage` on the map: initialise the user, then append a timestamped turn. */
  function Add(h: History, phoneNumber: string, role: Speaker, content: Content, now: nat,
               systemMessage: string, maxHistoryLength: nat): (r: History)
    ensures r.Keys == h.Keys + {phoneNumber}
    ensures forall u :: u in h && u != phoneNumber ==> r[u] == h[u]
  {
    var h1 := Initialized(h, phoneNumber, systemMessage);
    h1[phoneNumber := Appended(h1[phoneNumber], Message(role, content, Some(now)), maxHistoryLength)]
  }

  /**
   * `addMessage` keeps every log well formed, and the user's log ends with the
   * new turn, stamped with the clock reading.
   */
  lemma AddWellFormed(h: History, phoneNumber: string, role: Speaker, content: Content, now: nat,
                      systemMessage: string, maxHistoryLength: nat)
    requires maxHistoryLength >= 1
    requires WellFormedHistory(h, systemMessage, maxHistoryLength)
    ensures var r := Add(h, phoneNumber, role, content, now, systemMessage, maxHistoryLength);
      && WellFormedHistory(r, systemMessage, maxHistoryLength)
      && r[phoneNumber][|r[phoneNumber]| - 1] == Message(role, content, Some(now))
  {
    var h1 := Initialized(h, phoneNumber, systemMessage);
    AppendedWellFormed(h1[phoneNumber], Message(role, content, Some(now)), systemMessage, maxHistoryLength);
  }

  /** Below the cap a turn is appended and nothing is dropped. */
  lemma AppendedBelowCap(log: Log, m: Message, maxHistoryLength: nat)
    requires |log| <= maxHistoryLength
    ensures Appended(log, m, maxHistoryLength) == log + [m]
  {
  }

  /** At the cap the oldest turn after the system message is dropped. */
  lemma AppendedAtCap(log: Log, m: Message, maxHistoryLength: nat)
    requires maxHistoryLength >= 1 && |log| == maxHistoryLength + 1
    ensures Appended(log, m, maxHistoryLength) == [log[0]] + log[2..] + [m]
  {
    var grown := log + [m];
    assert grown[|grown| - maxHistoryLength..] == log[2..] + [m];
  }

  /** After appending `m`, the previous last entry is still second to last when the cap is at least two. */
  lemma AppendedKeepsPrevious(log: Log, m: Message, max: nat)
    requires max >= 2 && 2 <= |log| <= max + 1
    ensures var r := Appended(log, m, max);
      |r| >= 3 && r[|r| - 2] == log[|log| - 1] && r[|r| - 1] == m
  {
    if |log| == max + 1 {
      AppendedAtCap(log, m, max);
    }
  }

  /** After `addMessage` the user's log holds a turn besides the system message, ending with the new one. */
  lemma AddedLogBounds(h: History, key: string, role: Speaker, content: Content, now: nat,
                       sys: string, max: nat)
    requires max >= 1
    requires key in h ==> 1 <= |h[key]| <= max + 1
    ensures var r := Add(h, key, role, content, now, sys, max);
      && key in r
      && 2 <= |r[key]| <= max + 1
      && r[key][|r[key]| - 1] == Message(role, content, Some(now))
  {
    var log := Initialized(h, key, sys)[key];
    assert 1 <= |log| <= max + 1;
    if |log| == max + 1 {
      AppendedAtCap(log, Message(role, content, Some(now)), max);
    }
  }

  /** A second `addMessage` to a log that already holds a turn keeps that turn second to last. */
  lemma AddKeepsPrevious(h: History, key: string, role: Speaker, content: Content, now: nat,
                         sys: string, max: nat)
    requires max >= 2 && key in h && 2 <= |h[key]| <= max + 1
    ensures var r := Add(h, key, role, content, now, sys, max);
      && key in r
      && |r[key]| >= 3
      && r[key][|r[key]| - 2] == h[key][|h[key]| - 1]
      && r[key][|r[key]| - 1] == Message(role, content, Some(now))
  {
    assert Initialized(h, key, sys)[key] == h[key];
    AppendedKeepsPrevious(h[key], Message(role, content, Some(now)), max);
  }

  /** After appending `m`, the previous last two entries stay just before it when the cap is at least three. */
  lemma AppendedKeepsLastTwo(log: Log, m: Message, max: nat)
    requires max >= 3 && 3 <= |log| <= max + 1
    ensures var r := Appended(log, m, max);
      && |r| >= 4
      && r[|r| - 3] == log[|log| - 2]
      && r[|r| - 2] == log[|log| - 1]
      && r[|r| - 1] == m
  {
    if |log| == max + 1 {
      AppendedAtCap(log, m, max);
    }
  }

  /** `addMessage` on a log holding two turns keeps them just before the new one, with a cap of three or more. */
  lemma AddKeepsLastTwo(h: History, key: string, role: Speaker, content: Content, now: nat,
                        sys: string, max: nat)
    requires max >= 3 && key in h && 3 <= |h[key]| <= max + 1
    ensures var r := Add(h, key, role, content, now, sys, max);
      && key in r
      && |r[key]| >= 4
      && r[key][|r[key]| - 3] == h[key][|h[key]| - 2]
      && r[key][|r[key]| - 2] == h[key][|h[key]| - 1]
      && r[key][|r[key]| - 1] == Message(role, content, Some(now))
  {
    assert Initialized(h, key, sys)[key] == h[key];
    AppendedKeepsLastTwo(h[key], Message(role, content, Some(now)), max);
  }

  /**
   * With `maxHistoryLength >= 1`, appending a user or assistant turn keeps the
   * log well formed, keeps its system message and ends it with the new turn.
   */
  lemma AppendedWellFormed(log: Log, m: Message, systemMessage: string, maxHistoryLength: nat)
    requires maxHistoryLength >= 1
    requires WellFormedLog(log, systemMessage, maxHistoryLength)
    requires m.role != System
    ensures var r := Appended(log, m, maxHistoryLength);
      WellFormedLog(r, systemMessage, maxHistoryLength) && r[|r| - 1] == m
  {
    if |log| == maxHistoryLength + 1 {
      AppendedAtCap(log, m, maxHistoryLength);
    }
  }

  /**
   * With `maxHistoryLength = 0` the truncation keeps the whole pushed array
   * after a second copy of its first entry, so the log grows by two entries.
   */
  lemma ZeroCapDuplicatesFirstEntry(log: Log, m: Message)
    requires |log| >= 1
    ensures Appended(log, m, 0) == [log[0]] + log + [m]
  {
  }

  /** The last `n` entries of `s`, or all of them when there are fewer. */
  function LastN(s: Log, n: nat): (r: Log)
    ensures |r| <= n && |r| <= |s| && r == s[|s| - |r|..]
    ensures |s| <= n ==> r == s
    ensures n <= |s| ==> |r| == n
  {
    if |s| <= n then s else s[|s| - n..]
  }

  /** Successive `addMessage` calls of `turns`, in order, on one log. */
  function AppendAll(log: Log, turns: seq<Message>, maxHistoryLength: nat): Log
    decreases |turns|
  {
    if turns == [] then log
    else Appended(AppendAll(log, turns[..|turns| - 1], maxHistoryLength), turns[|turns| - 1], maxHistoryLength)
  }

  /** One push and truncation on the system message followed by at most `maxHistoryLength` turns. */
  lemma AppendedOnKept(sys: Message, kept: Log, t: Message, maxHistoryLength: nat)
    requires maxHistoryLength >= 1 && |kept| <= maxHistoryLength
    ensures Appended([sys] + kept, t, maxHistoryLength) == [sys] + LastN(kept + [t], maxHistoryLength)
  {
    var grown := [sys] + kept + [t];
    if |grown| > maxHistoryLength + 1 {
      assert grown[|grown| - maxHistoryLength..] == (kept + [t])[1..];
    }
  }

  /** Keeping the last `n` and then pushing keeps the same last `n` as pushing first. */
  lemma LastNPush(s: Log, t: Message, n: nat)
    requires n >= 1
    ensures LastN(LastN(s, n) + [t], n) == LastN(s + [t], n)
  {
    if |s| > n {
      var kept := s[|s| - n..];
      assert (kept + [t])[1..] == (s + [t])[|s| + 1 - n..];
    }
  }

  /**
   * Truncation is first in, first out: after any sequence of turns on a fresh
   * log, the log is the system message followed by the last
   * `maxHistoryLength` turns in their original order.
   */
  lemma {:induction false} AppendAllKeepsLastTurns(sys: Message, turns: seq<Message>, maxHistoryLength: nat)
    requires maxHistoryLength >= 1
    ensures AppendAll([sys], turns, maxHistoryLength) == [sys] + LastN(turns, maxHistoryLength)
    decreases |turns|
  {
    if turns != [] {
      var init, t := turns[..|turns| - 1], turns[|turns| - 1];
      assert turns == init + [t];
      AppendAllKeepsLastTurns(sys, init, maxHistoryLength);
      var kept := LastN(init, maxHistoryLength);
      assert AppendAll([sys], turns, maxHistoryLength) == Appended([sys] + kept, t, maxHistoryLength);
      AppendedOnKept(sys, kept, t, maxHistoryLength);
      LastNPush(init, t, maxHistoryLength);
    }
  }

  /** With a cap of 3, six turns leave the system message and the last three. */
  lemma TruncationExample(sys: Message, t1: Message, t2: Message, t3: Message,
                          t4: Message, t5: Message, t6: Message)
    ensures AppendAll([sys], [t1, t2, t3, t4, t5, t6], 3) == [sys, t4, t5, t6]
  {
    AppendAllKeepsLastTurns(sys, [t1, t2, t3, t4, t5, t6], 3);
    assert [t1, t2, t3, t4, t5, t6][3..] == [t4, t5, t6];
  }

  /** Initialising twice is initialising once. */
  lemma InitializedIdempotent(h: History, phoneNumber: string, systemMessage: string)
    ensures Initialized(Initialized(h, phoneNumber, systemMessage), phoneNumber, systemMessage)
         == Initialized(h, phoneNumber, systemMessage)
  {
  }

  /** After `clearHistory(u)` the next access to `u` sees a fresh log, and everyone else is untouched. */
  lemma ClearThenAccess(h: History, u: string, systemMessage: string)
    ensures Initialized(h - {u}, u, systemMessage)[u] == [SystemEntry(systemMessage)]
    ensures forall v :: v != u ==> (v in h - {u} <==> v in h)
    ensures forall v :: v != u && v in h ==> (h - {u})[v] == h[v]
  {
  }

  /** A `Map.set` of a key: a new key goes to the end of the iteration order, an existing one keeps its place. */
  function WithKey(order: seq<string>, k: string): (r: seq<string>)
    ensures forall x :: x in r <==> x in order || x == k
    ensures Distinct(order) ==> Distinct(r)
  {
    if k in order then order else order + [k]
  }

  /** A `Map.delete` of a key: the iteration order without it. */
  function WithoutKey(order: seq<string>, k: string): (r: seq<string>)
    ensures forall x :: x in r <==> x in order && x != k
    ensures Distinct(order) ==> Distinct(r)
    decreases |order|
  {
    if order == [] then []
    else
      var rest := WithoutKey(order[1..], k);
      assert forall x :: x in order[1..] ==> x in order;
      assert Distinct(order) ==> Distinct(order[1..]) && order[0] !in order[1..];
      if order[0] == k then rest else [order[0]] + rest
  }

  /**
   * The store. `history` is the map's contents and `order` the order in
   * which `Map.keys()` visits its keys (insertion order).
   */
  class ConversationStore {
    const maxHistoryLength: nat
    const systemMessage: string
    var history: History
    var order: seq<string>

    ghost predicate Valid()
      reads this
    {
      && maxHistoryLength >= 1
      && WellFormedHistory(history, systemMessage, maxHistoryLength)
      && Distinct(order)
      && forall k :: k in order <==> k in history
    }

    /** An empty store; the length bound needs a cap of at least one turn. */
    constructor (maxHistoryLength: nat, systemMessage: string)
      requires maxHistoryLength >= 1
      ensures Valid()
      ensures this.maxHistoryLength == maxHistoryLength && this.systemMessage == systemMessage
      ensures history == map[] && order == []
    {
      this.maxHistoryLength := maxHistoryLength;
      this.systemMessage := systemMessage;
      history := map[];
      order := [];
    }

    /** `initConversation`: create `[system]` for an unknown user, leave a known one alone. */
    method InitConversation(phoneNumber: string)
      requires Valid()
      modifies this
      ensures Valid()
      ensures history == Initialized(old(history), phoneNumber, systemMessage)
      ensures order == WithKey(old(order), phoneNumber)
    {
      if phoneNumber !in history {
        history := history[phoneNumber := [SystemEntry(systemMessage)]];
        order := order + [phoneNumber];
      }
    }

    /** `addMessage`: append one turn stamped `now`, then truncate. */
    method AddMessage(phoneNumber: string, role: Speaker, content: Content, now: nat)
      requires Valid()
      modifies this
      ensures Valid()
      ensures history == Add(old(history), phoneNumber, role, content, now, systemMessage, maxHistoryLength)
      ensures order == WithKey(old(order), phoneNumber)
    {
      AddWellFormed(history, phoneNumber, role, content, now, systemMessage, maxHistoryLength);
      InitConversation(phoneNumber);
      var messages := history[phoneNumber];
      messages := messages + [Message(role, content, Some(now))];
      history := history[phoneNumber := messages];
      if |messages| > maxHistoryLength + 1 {
        history := history[phoneNumber := [messages[0]] + SliceFromEnd(messages, maxHistoryLength)];
      }
    }

    /** `getHistory`: the user's log, created first if the user is unknown. */
    method GetHistory(phoneNumber: string) returns (log: Log)
      requires Valid()
      modifies this
      ensures Valid()
      ensures history == Initialized(old(history), phoneNumber, systemMessage)
      ensures order == WithKey(old(order), phoneNumber)
      ensures log == history[phoneNumber]
      ensures phoneNumber in old(history) ==> log == old(history)[phoneNumber]
      ensures phoneNumber !in old(history) ==> log == [SystemEntry(systemMessage)]
    {
      InitConversation(phoneNumber);
      log := history[phoneNumber];
    }

    /** `clearHistory`: forget the user. */
    method ClearHistory(phoneNumber: string)
      requires Valid()
      modifies this
      ensures Valid()
      ensures history == old(history) - {phoneNumber}
      ensures order == WithoutKey(old(order), phoneNumber)
    {
      history := history - {phoneNumber};
      order := WithoutKey(order, phoneNumber);
    }

    /** `getAllActiveConversations`: the current keys, each once, in insertion order. */
    method GetAllActiveConversations() returns (keys: seq<string>)
      requires Valid()
      ensures keys == order
      ensures Distinct(keys)
      ensures forall k :: k in keys <==> k in history
    {
      keys := order;
    }
  }

  /** The process-wide store, configured from the environment settings. */
  method DefaultStore() returns (store: ConversationStore)
    ensures fresh(store) && store.Valid()
    ensures store.maxHistoryLength == Config.MaxHistoryLength && store.systemMessage == Config.SystemMessage
    ensures store.history == map[] && store.order == []
  {
    store := new ConversationStore(Config.MaxHistoryLength, Config.SystemMessage);
  }
}
