/** The bounded event log that the admin event stream replays from (internal/adminhttp/observation.go). */
module EventLog {
  import opened Wrappers
  import opened Text

  // ---- cursors: eight big-endian bytes in unpadded URL-safe base64 ----

  const UINT64_RANGE := 0x1_0000_0000_0000_0000

  function Power(b: nat, n: nat): nat { if n == 0 then 1 else Power(b, n - 1) * b }

  /** The n lowest digits of v to base 64, highest first. */
  function Digits(n: nat, v: nat): seq<nat> { if n == 0 then [] else Digits(n - 1, v / 64) + [v % 64] }

  function Value(ds: seq<nat>): nat { if ds == [] then 0 else Value(ds[..|ds| - 1]) * 64 + ds[|ds| - 1] }

  function Letter(d: nat): char {
    if d < 26 then 'A' + d as char
    else if d < 52 then 'a' + (d - 26) as char
    else if d < 62 then '0' + (d - 52) as char
    else if d == 62 then '-' else '_'
  }

  function Digit(c: char): Option<nat> {
    if 'A' <= c <= 'Z' then Some((c - 'A') as nat)
    else if 'a' <= c <= 'z' then Some((c - 'a') as nat + 26)
    else if '0' <= c <= '9' then Some((c - '0') as nat + 52)
    else if c == '-' then Some(62) else if c == '_' then Some(63) else None
  }

  function Letters(ds: seq<nat>): string { seq(|ds|, i requires 0 <= i < |ds| => Letter(ds[i])) }

  /** 64 bits and two zero bits make eleven digits. */
  function EncodeCursor(v: nat): string {
    Letters(Digits(11, v * 4))
  }

  /** The decoder skips line breaks and ignores the two spare bits. */
  function WithoutBreaks(s: string): string {
    if s == "" then "" else (if s[0] in {'\r', '\n'} then "" else [s[0]]) + WithoutBreaks(s[1..])
  }

  predicate Alphabetic(letters: string) { forall i | 0 <= i < |letters| :: Digit(letters[i]).Some? }

  function DigitsIn(letters: string): (ds: seq<nat>)
    requires Alphabetic(letters)
    ensures |ds| == |letters| && forall i | 0 <= i < |letters| :: Digit(letters[i]) == Some(ds[i])
  {
    seq(|letters|, i requires 0 <= i < |letters| => Digit(letters[i]).value)
  }

  function DecodeLetters(letters: string): Option<nat> {
    if |letters| != 11 || !Alphabetic(letters) then None else Some(Value(DigitsIn(letters)) / 4)
  }

  function DecodeCursor(s: string): Option<nat> {
    if Blank(s) then Some(0) else DecodeLetters(WithoutBreaks(s))
  }

  lemma {:induction false} DigitsOf(n: nat, v: nat)
    requires v < Power(64, n)
    ensures |Digits(n, v)| == n && (forall i | 0 <= i < n :: Digits(n, v)[i] < 64) && Value(Digits(n, v)) == v
  {
    if n > 0 {
      DigitsOf(n - 1, v / 64);
      assert Digits(n, v)[..n - 1] == Digits(n - 1, v / 64);
    }
  }

  lemma {:induction false} NoBreaks(s: string)
    requires forall i | 0 <= i < |s| :: s[i] !in {'\r', '\n'}
    ensures WithoutBreaks(s) == s
  {
    if s != "" { NoBreaks(s[1..]); }
  }

  lemma ElevenDigits()
    ensures Power(64, 11) == 4 * UINT64_RANGE
  {
    assert Power(64, 4) == 0x1000000;
    assert Power(64, 8) == 0x1000000 * 0x1000000;
  }

  lemma LetterIsNoSpace(d: nat)
    requires d < 64
    ensures !IsSpace(Letter(d)) && Letter(d) !in {'\r', '\n'} && Digit(Letter(d)) == Some(d)
  {
  }

  lemma {:induction false} TrimLeftKeeps(s: string)
    requires s != "" && !IsSpace(s[0])
    ensures !Blank(s)
  {
    assert TrimLeft(s) == s;
    KeepsFirst(s);
  }

  lemma {:induction false} KeepsFirst(s: string)
    requires s != "" && !IsSpace(s[0])
    ensures TrimRight(s) != ""
  {
    if IsSpace(s[|s| - 1]) { KeepsFirst(s[..|s| - 1]); }
  }

  lemma LettersDecode(ds: seq<nat>)
    requires |ds| == 11 && forall i | 0 <= i < 11 :: ds[i] < 64
    ensures DecodeLetters(Letters(ds)) == Some(Value(ds) / 4)
  {
    var s := Letters(ds);
    forall i | 0 <= i < 11 ensures Digit(s[i]) == Some(ds[i]) { LetterIsNoSpace(ds[i]); }
    assert DigitsIn(s) == ds;
  }

  lemma LettersArePlain(ds: seq<nat>)
    requires ds != [] && forall i | 0 <= i < |ds| :: ds[i] < 64
    ensures !Blank(Letters(ds)) && WithoutBreaks(Letters(ds)) == Letters(ds)
  {
    var s := Letters(ds);
    forall i | 0 <= i < |ds| ensures !IsSpace(s[i]) && s[i] !in {'\r', '\n'} { LetterIsNoSpace(ds[i]); }
    NoBreaks(s);
    TrimLeftKeeps(s);
  }

  lemma CursorDigits(v: nat) returns (ds: seq<nat>)
    requires v < UINT64_RANGE
    ensures EncodeCursor(v) == Letters(ds) && |ds| == 11 && (forall i | 0 <= i < 11 :: ds[i] < 64) && Value(ds) == v * 4
  {
    ElevenDigits();
    DigitsOf(11, v * 4);
    ds := Digits(11, v * 4);
  }

  /** Every cursor handed out comes back as the sequence number it was made from. */
  lemma CursorRoundTrip(v: nat)
    requires v < UINT64_RANGE
    ensures DecodeCursor(EncodeCursor(v)) == Some(v)
  {
    var ds := CursorDigits(v);
    LettersDecode(ds);
    LettersArePlain(ds);
  }

  /** n characters from c on. */
  function From(c: char, n: nat): (r: string)
    requires c as int + n <= 128
    ensures |r| == n && forall i | 0 <= i < n :: r[i] == c + i as char
  {
    if n == 0 then "" else From(c, n - 1) + [c + (n - 1) as char]
  }

  /** The URL-safe alphabet of section 5 of RFC 4648. */
  const ALPHABET := From('A', 26) + From('a', 26) + From('0', 10) + "-_"

  lemma LettersOfAlphabet(d: nat)
    requires d < 64
    ensures |ALPHABET| == 64 && Letter(d) == ALPHABET[d]
  {
  }

  lemma DigitsOfAlphabet(c: char, d: nat)
    ensures Digit(c) == Some(d) <==> d < 64 && ALPHABET[d] == c
  {
    if d < 64 { LettersOfAlphabet(d); }
  }

  lemma DividedTwice(v: nat, a: nat, b: nat)
    requires a > 0 && b > 0
    ensures a * b > 0 && v / a / b == v / (a * b)
  {
    var q, r := v / a, v % a;
    var p, s := q / b, q % b;
    assert v == (p * b + s) * a + r == p * (a * b) + (s * a + r);
    SmallRest(a, b, s, r);
    OneQuotient(v, a * b, p, s * a + r);
  }

  lemma SmallRest(a: nat, b: nat, s: nat, r: nat)
    requires s < b && r < a
    ensures s * a + r < a * b
  {
    assert s * a <= (b - 1) * a;
  }

  lemma ProductsAreOrdered(a: nat, b: nat, n: nat)
    requires a >= b
    ensures a * n >= b * n
  {
    assert a * n == b * n + (a - b) * n;
  }

  lemma FactorsAreOrdered(a: nat, b: nat, n: nat)
    requires a * n < b * n
    ensures a < b
  {
    if a >= b { ProductsAreOrdered(a, b, n); }
  }

  lemma OneQuotient(v: nat, n: nat, p: nat, r: nat)
    requires n > 0 && v == p * n + r && r < n
    ensures v / n == p
  {
    var q := v / n;
    assert v == q * n + v % n && (p + 1) * n == p * n + n && (q + 1) * n == q * n + n;
    FactorsAreOrdered(q, p + 1, n);
    FactorsAreOrdered(p, q + 1, n);
  }

  lemma {:induction false} PowerIsPositive(b: nat, n: nat)
    requires b > 0
    ensures Power(b, n) > 0
  {
    if n > 0 { PowerIsPositive(b, n - 1); }
  }

  lemma {:induction false} DigitAt(n: nat, v: nat, i: nat)
    requires i < n
    ensures |Digits(n, v)| == n && Power(64, n - 1 - i) > 0 && Digits(n, v)[i] == v / Power(64, n - 1 - i) % 64
    decreases n
  {
    PowerIsPositive(64, n - 1 - i);
    DigitCount(n, v);
    if i < n - 1 {
      DigitAt(n - 1, v / 64, i);
      DividedTwice(v, 64, Power(64, n - 2 - i));
    }
  }

  lemma {:induction false} DigitCount(n: nat, v: nat)
    ensures |Digits(n, v)| == n
  {
    if n > 0 { DigitCount(n - 1, v / 64); }
  }

  /** A cursor is the sequence number's 64 bits, highest first, six to a letter, with two zero bits at the end. */
  lemma CursorIsBigEndian(v: nat, i: nat)
    requires i < 11
    ensures |EncodeCursor(v)| == 11 && Power(64, 10 - i) > 0 && EncodeCursor(v)[i] == ALPHABET[v * 4 / Power(64, 10 - i) % 64]
  {
    DigitAt(11, v * 4, i);
    LettersOfAlphabet(v * 4 / Power(64, 10 - i) % 64);
  }

  // ---- what a log of everything ever appended shows ----

  /** An event; its cursor is always the encoding of its sequence number. */
  datatype Event = Event(sequence: nat, payload: string, occurredAt: string)

  function Cursor(e: Event): string { EncodeCursor(e.sequence) }

  function Dropped(n: nat, capacity: nat): nat { if n > capacity then n - capacity else 0 }

  /** The retained events: the contiguous last min(capacity, n). */
  function Retained(log: seq<Event>, capacity: nat): (r: seq<Event>)
    ensures |r| == if |log| < capacity then |log| else capacity
  {
    log[Dropped(|log|, capacity)..]
  }

  predicate Numbered(log: seq<Event>) { forall i | 0 <= i < |log| :: log[i].sequence == i + 1 }

  /** A cursor is expired when it is ahead of the log, or an event after it was dropped; the zero cursor never is. */
  predicate Expired(log: seq<Event>, capacity: nat, after: nat) {
    after > |log| || (after > 0 && after < Dropped(|log|, capacity))
  }

  /** What a replay returns: every retained event after the cursor. */
  function Replayed(log: seq<Event>, capacity: nat, after: nat): seq<Event>
    requires !Expired(log, capacity, after)
  {
    log[if after < Dropped(|log|, capacity) then Dropped(|log|, capacity) else after..]
  }

  // ---- the log itself ----

  /** A Go channel used only to be closed. */
  class Channel {
    var closed: bool

    constructor ()
      ensures !closed
    {
      closed := false;
    }
  }

  class EventLog {
    const capacity: nat
    var next: nat
    var events: seq<Event>
    var notify: Channel
    ghost var log: seq<Event>
    /** channels[n] was current while the log held n events. */
    ghost var channels: seq<Channel>

    /** Every channel but the current one is closed. */
    ghost predicate ChannelsValid(n: nat)
      reads this, channels
    {
      && |channels| == n + 1 && notify == channels[n]
      && (forall i, j | 0 <= i < j < |channels| :: channels[i] != channels[j])
      && (forall i | 0 <= i < |channels| :: channels[i].closed <==> i < n)
    }

    ghost predicate Valid()
      reads this, channels
    {
      capacity > 0 && next == |log| && Numbered(log) && events == Retained(log, capacity) && ChannelsValid(|log|)
    }

    constructor (capacity: int)
      ensures Valid() && log == [] && fresh(channels)
      ensures this.capacity == if capacity <= 0 then 256 else capacity
    {
      var first := new Channel();
      this.capacity := if capacity <= 0 then 256 else capacity;
      next, events, log, notify, channels := 0, [], [], first, [first];
      new;
      assert Retained(log, this.capacity) == [];
    }

    /** close(notify), and a fresh channel for the next append. */
    method WakeFollowers(ghost n: nat)
      requires ChannelsValid(n)
      modifies this`notify, this`channels, notify
      ensures ChannelsValid(n + 1) && channels[..n + 1] == old(channels) && fresh(notify) && old(notify).closed
    {
      notify.closed := true;
      notify := new Channel();
      channels := channels + [notify];
    }

    method Append(payload: string, occurredAt: string, now: string) returns (stored: Event)
      requires Valid()
      modifies this, notify
      ensures Valid() && log == old(log) + [stored] && channels[..|log|] == old(channels) && fresh(notify)
      ensures old(notify).closed
      ensures stored.sequence == |old(log)| + 1
      ensures stored.payload == payload && stored.occurredAt == if occurredAt == "" then now else occurredAt
      ensures events == if |log| > capacity then log[|log| - capacity..] else log
    {
      WakeFollowers(|log|);
      next := next + 1;
      stored := Event(next, payload, if occurredAt == "" then now else occurredAt);
      RetainedGrows(log, stored, capacity);
      log := log + [stored];
      events := events + [stored];
      if |events| > capacity { events := events[|events| - capacity..]; }
    }

    /** The events after a cursor, whether it expired, and the channel that the next append will close. */
    method Replay(after: nat) returns (found: seq<Event>, expired: bool, latest: nat, wake: Channel)
      requires Valid()
      ensures latest == |log| && wake == channels[latest] && !wake.closed
      ensures expired == Expired(log, capacity, after)
      ensures found == if expired then [] else Replayed(log, capacity, after)
      ensures expired <==> after > |log| || (after > 0 && after + capacity < |log|)
      ensures !expired ==> found == log[if after + capacity < |log| then |log| - capacity else after..]
    {
      latest, wake := next, notify;
      expired := after > latest || (|events| > 0 && after > 0 && after + 1 < events[0].sequence);
      if expired { return [], expired, latest, wake; }
      found := EventsAfter(events, after, Dropped(|log|, capacity));
      ReplayedIsSuffix(log, capacity, after);
    }
  }

  /** The loop over the retained events. */
  method EventsAfter(events: seq<Event>, after: nat, ghost base: nat) returns (found: seq<Event>)
    requires forall i | 0 <= i < |events| :: events[i].sequence == base + i + 1
    ensures found == Suffix(events, after, base)
  {
    found := [];
    var i := 0;
    while i < |events|
      invariant 0 <= i <= |events|
      invariant found == Suffix(events[..i], after, base)
    {
      assert events[..i + 1] == events[..i] + [events[i]];
      if events[i].sequence > after { found := found + [events[i]]; }
      i := i + 1;
    }
    assert events[..i] == events;
  }

  /** Events numbered from base + 1 on, without those up to the cursor. */
  function Suffix(events: seq<Event>, after: nat, base: nat): seq<Event> {
    if after <= base then events else if after - base >= |events| then [] else events[after - base..]
  }

  lemma ReplayedIsSuffix(log: seq<Event>, capacity: nat, after: nat)
    requires !Expired(log, capacity, after)
    ensures Replayed(log, capacity, after) == Suffix(Retained(log, capacity), after, Dropped(|log|, capacity))
  {
  }

  lemma RetainedGrows(log: seq<Event>, e: Event, capacity: nat)
    requires capacity > 0
    ensures var events := Retained(log, capacity) + [e];
            Retained(log + [e], capacity) == if |events| > capacity then events[|events| - capacity..] else events
  {
  }

  // ---- followers ----

  /** A reader of the stream: its cursor, what it was sent, and whether it was told to start over. */
  datatype Follower = Follower(after: nat, received: seq<Event>, expired: bool)

  datatype Turn = Publish(event: Event) | Poll

  function Polled(log: seq<Event>, capacity: nat, f: Follower): Follower {
    if f.expired then f
    else if Expired(log, capacity, f.after) then f.(expired := true)
    else
      var found := Replayed(log, capacity, f.after);
      f.(received := f.received + found, after := if found == [] then f.after else |log|)
  }

  function LogAfter(log: seq<Event>, turns: seq<Turn>): seq<Event>
    decreases |turns|
  {
    if turns == [] then log
    else LogAfter(if turns[0].Publish? then log + [turns[0].event] else log, turns[1..])
  }

  function Follow(log: seq<Event>, capacity: nat, f: Follower, turns: seq<Turn>): Follower
    decreases |turns|
  {
    if turns == [] then f
    else if turns[0].Publish? then Follow(log + [turns[0].event], capacity, f, turns[1..])
    else Follow(log, capacity, Polled(log, capacity, f), turns[1..])
  }

  /** The follower has been sent exactly the events after its first cursor, once each and in order. */
  ghost predicate UpToDate(log: seq<Event>, start: nat, f: Follower) {
    start <= f.after <= |log| && f.received == log[start..f.after]
  }

  lemma {:induction false} LogGrows(log: seq<Event>, turns: seq<Turn>)
    ensures log <= LogAfter(log, turns)
    decreases |turns|
  {
    if turns != [] { LogGrows(if turns[0].Publish? then log + [turns[0].event] else log, turns[1..]); }
  }

  /** A follower with a positive cursor that the log knows never misses an event unnoticed: it has received every
      event up to its cursor, whatever is published between its polls and however small the log is. */
  lemma {:induction false} FollowerMissesNothing(log: seq<Event>, capacity: nat, start: nat, f: Follower, turns: seq<Turn>)
    requires 0 < start && UpToDate(log, start, f) && !f.expired
    ensures UpToDate(LogAfter(log, turns), start, Follow(log, capacity, f, turns))
    decreases |turns|
  {
    if turns != [] {
      if turns[0].Publish? {
        var longer := log + [turns[0].event];
        assert longer[start..f.after] == log[start..f.after];
        FollowerMissesNothing(longer, capacity, start, f, turns[1..]);
      } else {
        var g := Polled(log, capacity, f);
        PollCatchesUp(log, capacity, start, f);
        if g.expired {
          ExpiredStays(log, capacity, g, turns[1..]);
          LogGrows(log, turns[1..]);
          assert LogAfter(log, turns[1..])[start..g.after] == log[start..g.after];
        } else {
          FollowerMissesNothing(log, capacity, start, g, turns[1..]);
        }
      }
    }
  }

  /** A poll that does not expire brings a follower from its cursor to the end of the log. */
  lemma PollCatchesUp(log: seq<Event>, capacity: nat, start: nat, f: Follower)
    requires 0 < start && UpToDate(log, start, f) && !f.expired
    ensures var g := Polled(log, capacity, f); UpToDate(log, start, g) && (g.expired ==> g.received == f.received && g.after == f.after)
  {
    assert log[start..f.after] + log[f.after..] == log[start..];
  }

  lemma {:induction false} ExpiredStays(log: seq<Event>, capacity: nat, f: Follower, turns: seq<Turn>)
    requires f.expired
    ensures Follow(log, capacity, f, turns) == f
    decreases |turns|
  {
    if turns != [] { ExpiredStays(if turns[0].Publish? then log + [turns[0].event] else log, capacity, f, turns[1..]); }
  }

  /** The i-th event came after the cursor and is no longer retained. */
  predicate Lost(log: seq<Event>, capacity: nat, after: nat, i: nat) { after <= i < Dropped(|log|, capacity) }

  /** A poll tells a positive cursor to start over exactly if it is ahead of the log or lost an event; otherwise it
      catches up completely. */
  lemma PollIsExact(log: seq<Event>, capacity: nat, f: Follower)
    requires !f.expired && f.after > 0
    ensures Polled(log, capacity, f).expired <==> f.after > |log| || exists i :: Lost(log, capacity, f.after, i)
    ensures !Polled(log, capacity, f).expired ==> Polled(log, capacity, f) == Follower(|log|, f.received + log[f.after..], false)
  {
    if f.after < Dropped(|log|, capacity) { assert Lost(log, capacity, f.after, f.after); }
  }

  /** The zero cursor is never expired, and misses events silently exactly if the log has overflowed. */
  lemma ZeroCursorMissesSilently(log: seq<Event>, capacity: nat, f: Follower)
    requires f == Follower(0, [], false)
    ensures !Polled(log, capacity, f).expired
    ensures Polled(log, capacity, f).received == log <==> |log| <= capacity
  {
    if |log| > capacity {
      assert |Polled(log, capacity, f).received| == capacity;
    }
  }

  /** One round of the stream's loop: replay, stop if expired, else write the events and move the cursor along. */
  method ServeRound(events: EventLog, f: Follower) returns (g: Follower, wake: Channel)
    requires events.Valid() && !f.expired
    ensures g == Polled(events.log, events.capacity, f)
    ensures wake == events.channels[|events.log|] && !wake.closed
  {
    var found, expired, latest, channel := events.Replay(f.after);
    wake := channel;
    if expired { return f.(expired := true), wake; }
    ghost var start := |events.log| - |found|;
    assert found == events.log[start..];
    g := f;
    var i := 0;
    while i < |found|
      invariant 0 <= i <= |found|
      invariant g.received == f.received + found[..i] && !g.expired
      invariant g.after == if i == 0 then f.after else start + i
    {
      assert found[i] == events.log[start + i] && found[..i + 1] == found[..i] + [found[i]];
      g := Follower(found[i].sequence, g.received + [found[i]], false);
      i := i + 1;
    }
    assert found[..i] == found;
  }
}
