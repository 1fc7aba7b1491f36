/** The sending half of `transmit.c`: encoding, packing, counting, and handing to the carriers. */
module Transmit {
  import opened Octets
  import opened Carriers
  import opened Config
  import opened Controller
  import opened Bluetooth
  import opened HciSession
  import WifiBeacon
  import Gps

  // ----- Encoding

  /** The fields of a record core-c encodes, other than the location. */
  type Fields = seq<int>

  datatype Uas = Uas(basic0: Fields, basic1: Fields, location: Gps.Location, auth0: Fields, auth1: Fields,
                     auth2: Fields, selfId: Fields, system: Fields, operatorId: Fields)

  /** The encoders of core-c: any functions of the old buffer and the data. One that fails may leave
      the buffer as it was or half written. The pack encoder gives the first two header octets, or
      fails and leaves the pack untouched. */
  datatype Encoders = Encoders(basicId: (Message, Fields) -> Message,
                               location: (Message, Gps.Location) -> Message,
                               auth: (Message, Fields) -> Message,
                               selfId: (Message, Fields) -> Message,
                               system: (Message, Fields) -> Message,
                               operatorId: (Message, Fields) -> Message,
                               pack: seq<Message> -> Option<(byte, byte)>)

  /** The encoder of the message in position `slot` of a cycle, run on the old buffer. */
  function EncodeSlot(enc: Encoders, uas: Uas, slot: nat, buffer: Message): (m: Message)
    requires slot < 9
  {
    match slot
    case 0 => enc.basicId(buffer, uas.basic0)
    case 1 => enc.basicId(buffer, uas.basic1)
    case 2 => enc.location(buffer, uas.location)
    case 3 => enc.auth(buffer, uas.auth0)
    case 4 => enc.auth(buffer, uas.auth1)
    case 5 => enc.auth(buffer, uas.auth2)
    case 6 => enc.selfId(buffer, uas.selfId)
    case 7 => enc.system(buffer, uas.system)
    case _ => enc.operatorId(buffer, uas.operatorId)
  }

  /** The buffer after the first `n` encoders, starting from zeros. */
  function Buffer(enc: Encoders, uas: Uas, n: nat): (m: Message)
    requires n <= 9
  {
    if n == 0 then Zeros(25) else EncodeSlot(enc, uas, n - 1, Buffer(enc, uas, n - 1))
  }

  function Messages(enc: Encoders, uas: Uas): (ms: seq<Message>)
    ensures |ms| == 9
  {
    seq(9, i requires 0 <= i < 9 => Buffer(enc, uas, i + 1))
  }

  /** Nine messages, each made by its own encoder from its own record and the buffer the one before
      it left, the first from zeros. */
  predicate InOrder(enc: Encoders, uas: Uas, ms: seq<Message>) {
    && |ms| == 9
    && ms[0] == enc.basicId(Zeros(25), uas.basic0)
    && ms[1] == enc.basicId(ms[0], uas.basic1)
    && ms[2] == enc.location(ms[1], uas.location)
    && ms[3] == enc.auth(ms[2], uas.auth0)
    && ms[4] == enc.auth(ms[3], uas.auth1)
    && ms[5] == enc.auth(ms[4], uas.auth2)
    && ms[6] == enc.selfId(ms[5], uas.selfId)
    && ms[7] == enc.system(ms[6], uas.system)
    && ms[8] == enc.operatorId(ms[7], uas.operatorId)
  }

  lemma MessagesInOrder(enc: Encoders, uas: Uas)
    ensures InOrder(enc, uas, Messages(enc, uas))
  {
    MessageStep(enc, uas, 0);
    MessageStep(enc, uas, 1);
    MessageStep(enc, uas, 2);
    MessageStep(enc, uas, 3);
    MessageStep(enc, uas, 4);
    MessageStep(enc, uas, 5);
    MessageStep(enc, uas, 6);
    MessageStep(enc, uas, 7);
    MessageStep(enc, uas, 8);
    hide Messages, Buffer;
  }

  lemma MessageStep(enc: Encoders, uas: Uas, i: nat)
    requires i < 9
    ensures Messages(enc, uas)[i]
         == EncodeSlot(enc, uas, i, if i == 0 then Zeros(25) else Messages(enc, uas)[i - 1])
  {
    hide EncodeSlot;
    assert Buffer(enc, uas, i + 1) == EncodeSlot(enc, uas, i, Buffer(enc, uas, i));
    if i > 0 {
      assert Messages(enc, uas)[i - 1] == Buffer(enc, uas, i);
    }
  }

  function MakePack(enc: Encoders, ms: seq<Message>): (pack: Pack)
    requires |ms| == 9
    ensures pack[2] <= 9
  {
    match enc.pack(ms)
    case None => Zeros(228)
    case Some((a, b)) => [a, b, 9] + Flatten(ms)
  }

  /** `create_message_pack`: the messages put into `pack_data`, and the pack made of them. */
  method CreateMessagePack(enc: Encoders, uas: Uas) returns (messages: array<Message>, pack: Pack)
    ensures messages.Length == 9 && messages[..] == Messages(enc, uas)
    ensures InOrder(enc, uas, messages[..])
    ensures pack == MakePack(enc, messages[..])
  {
    messages := EncodeMessages(enc, uas);
    MessagesInOrder(enc, uas);
    pack := Zeros(228);
    var header := enc.pack(messages[..]);
    if header.Some? {
      pack := [header.value.0, header.value.1, 9] + Flatten(messages[..]);
    }
  }

  method EncodeMessages(enc: Encoders, uas: Uas) returns (messages: array<Message>)
    ensures fresh(messages) && messages.Length == 9 && messages[..] == Messages(enc, uas)
  {
    var encoded: Message := Zeros(25);
    messages := new Message[9](_ => Zeros(25));
    encoded := enc.basicId(encoded, uas.basic0);
    assert encoded == Buffer(enc, uas, 1);
    messages[0] := encoded;
    encoded := enc.basicId(encoded, uas.basic1);
    assert encoded == Buffer(enc, uas, 2);
    messages[1] := encoded;
    encoded := enc.location(encoded, uas.location);
    assert encoded == Buffer(enc, uas, 3);
    messages[2] := encoded;
    encoded := enc.auth(encoded, uas.auth0);
    assert encoded == Buffer(enc, uas, 4);
    messages[3] := encoded;
    encoded := enc.auth(encoded, uas.auth1);
    assert encoded == Buffer(enc, uas, 5);
    messages[4] := encoded;
    encoded := enc.auth(encoded, uas.auth2);
    assert encoded == Buffer(enc, uas, 6);
    messages[5] := encoded;
    encoded := enc.selfId(encoded, uas.selfId);
    assert encoded == Buffer(enc, uas, 7);
    messages[6] := encoded;
    encoded := enc.system(encoded, uas.system);
    assert encoded == Buffer(enc, uas, 8);
    messages[7] := encoded;
    encoded := enc.operatorId(encoded, uas.operatorId);
    assert encoded == Buffer(enc, uas, 9);
    messages[8] := encoded;
    assert messages[..] == Messages(enc, uas);
  }

  // ----- Counters

  const BASIC_ID := 0
  const LOCATION := 1
  const AUTH := 2
  const SELF_ID := 3
  const SYSTEM := 4
  const OPERATOR_ID := 5
  const PACKED := 6

  type Counters = k: seq<byte> | |k| == 7 witness Zeros(7)

  /** The message counter a slot of the cycle uses. */
  function KindOf(slot: nat): (kind: nat)
    requires slot < 9
    ensures kind < PACKED
  {
    if slot < 2 then BASIC_ID else if slot == 2 then LOCATION else if slot < 6 then AUTH
    else if slot == 6 then SELF_ID else if slot == 7 then SYSTEM else OPERATOR_ID
  }

  /** How many of the first `i` messages of a run are of a kind. */
  function Count(kind: nat, i: nat): (n: nat) {
    if i == 0 then 0 else Count(kind, i - 1) + if KindOf((i - 1) % 9) == kind then 1 else 0
  }

  function PerCycle(kind: nat): (n: nat) {
    if kind == BASIC_ID then 2 else if kind == AUTH then 3 else if kind < PACKED then 1 else 0
  }

  /** How many messages of the same kind come earlier in the cycle. */
  function Rank(slot: nat): (n: nat) {
    if slot == 1 || slot == 4 then 1 else if slot == 5 then 2 else 0
  }

  lemma CountStep(kind: nat, c: nat, slot: nat)
    requires slot < 9
    ensures Count(kind, 9 * c + slot + 1) == Count(kind, 9 * c + slot) + if KindOf(slot) == kind then 1 else 0
  {
    assert (9 * c + slot) % 9 == slot;
  }

  /** The counts at the ten borders of the messages of a cycle. */
  function CountsOf(kind: nat, c: nat): (counts: seq<int>)
    ensures |counts| == 10
    ensures counts[0] == Count(kind, 9 * c) && counts[9] == Count(kind, 9 * (c + 1))
  {
    seq(10, i requires 0 <= i < 10 => Count(kind, 9 * c + i))
  }

  /** Adding up one cycle, whatever is counted. */
  lemma CountAdds(counts: seq<int>, kind: nat)
    requires |counts| == 10
    requires forall s :: 0 <= s < 9 ==> counts[s + 1] == counts[s] + if KindOf(s) == kind then 1 else 0
    ensures counts[9] == counts[0] + PerCycle(kind)
    ensures forall s :: 0 <= s < 9 && KindOf(s) == kind ==> counts[s] == counts[0] + Rank(s)
  {
    assert counts[0 + 1] == counts[0] + if kind == BASIC_ID then 1 else 0;
    assert counts[1 + 1] == counts[1] + if kind == BASIC_ID then 1 else 0;
    assert counts[2 + 1] == counts[2] + if kind == LOCATION then 1 else 0;
    assert counts[3 + 1] == counts[3] + if kind == AUTH then 1 else 0;
    assert counts[4 + 1] == counts[4] + if kind == AUTH then 1 else 0;
    assert counts[5 + 1] == counts[5] + if kind == AUTH then 1 else 0;
    assert counts[6 + 1] == counts[6] + if kind == SELF_ID then 1 else 0;
    assert counts[7 + 1] == counts[7] + if kind == SYSTEM then 1 else 0;
    assert counts[8 + 1] == counts[8] + if kind == OPERATOR_ID then 1 else 0;
  }

  lemma CountsStep(kind: nat, c: nat)
    ensures forall s :: 0 <= s < 9 ==>
              CountsOf(kind, c)[s + 1] == CountsOf(kind, c)[s] + if KindOf(s) == kind then 1 else 0
  {
    forall s | 0 <= s < 9
      ensures CountsOf(kind, c)[s + 1] == CountsOf(kind, c)[s] + if KindOf(s) == kind then 1 else 0
    {
      CountStep(kind, c, s);
    }
  }

  lemma CountOfCycle(kind: nat, c: nat)
    ensures Count(kind, 9 * (c + 1)) == Count(kind, 9 * c) + PerCycle(kind)
  {
    CountsStep(kind, c);
    CountAdds(CountsOf(kind, c), kind);
  }

  lemma CountOfSlot(c: nat, slot: nat)
    requires slot < 9
    ensures Count(KindOf(slot), 9 * c + slot) == Count(KindOf(slot), 9 * c) + Rank(slot)
  {
    hide Count;
    CountsStep(KindOf(slot), c);
    CountAdds(CountsOf(KindOf(slot), c), KindOf(slot));
    assert CountsOf(KindOf(slot), c)[slot] == Count(KindOf(slot), 9 * c + slot);
  }

  /** After `c` cycles, Basic ID was sent 2c times, Auth 3c times, the rest c times. */
  lemma {:induction false} CountAfterCycles(kind: nat, c: nat)
    ensures Count(kind, 9 * c) == c * PerCycle(kind)
  {
    if c > 0 {
      CountAfterCycles(kind, c - 1);
      CountOfCycle(kind, c - 1);
      assert c * PerCycle(kind) == (c - 1) * PerCycle(kind) + PerCycle(kind);
    }
  }

  /** The counter of the `i`th message of a run: how many of its kind came before, modulo 256. */
  function CounterAt(i: nat): (k: byte) {
    Low8(Count(KindOf(i % 9), i))
  }

  /** The counters of one kind run on by one from message to message, across cycles, modulo 256. */
  lemma CountersAreConsecutive(i: nat, j: nat)
    requires i < j && KindOf(i % 9) == KindOf(j % 9)
    requires forall k :: i < k < j ==> KindOf(k % 9) != KindOf(i % 9)
    ensures CounterAt(j) == Add8(CounterAt(i), 1)
  {
    CountUnchanged(KindOf(i % 9), i + 1, j);
  }

  lemma {:induction false} CountUnchanged(kind: nat, i: nat, j: nat)
    requires i <= j
    requires forall k :: i <= k < j ==> KindOf(k % 9) != kind
    ensures Count(kind, i) == Count(kind, j)
  {
    if i < j {
      CountUnchanged(kind, i, j - 1);
    }
  }

  // ----- What is handed to the carriers

  /** One call of `send_message`, or one round of the loop in `send_packs` with the counter values the
      two carriers get. */
  datatype Sent = SentMessage(message: Message, counter: byte)
                | SentPack(pack: Pack, beaconCounter: byte, bt5Counter: byte)

  predicate Belongs(config: Config, s: Sent) {
    s.SentPack? == config.usePacks && (s.SentPack? ==> s.pack[2] <= 9)
  }

  function ToBluetooth(s: Sent): (t: Transmission) {
    match s
    case SentMessage(m, k) => Single(m, k)
    case SentPack(p, _, k) => Packed(p, k)
  }

  function ToBeacon(s: Sent): (text: string)
    requires s.SentPack? ==> s.pack[2] <= 9
  {
    match s
    case SentMessage(m, k) => WifiBeacon.ElementText(k, m)
    case SentPack(p, k, _) => WifiBeacon.ElementText(k, PackBody(p))
  }

  /** The two carriers: the texts handed to hostapd and the commands written to the HCI socket. */
  datatype Output = Output(elements: seq<string>, packets: seq<Packet>)

  /** What reaches the carriers when `log` is sent, message by message. */
  function Carried(config: Config, log: seq<Sent>): (o: Output) {
    if log == [] then Output([], [])
    else
      var o, s := Carried(config, log[..|log| - 1]), log[|log| - 1];
      if !Belongs(config, s) then o
      else Output(o.elements + (if config.useBeacon then [ToBeacon(s)] else []),
                  o.packets + TransmitPackets(config, ToBluetooth(s)))
  }

  lemma CarriedGrows(config: Config, log: seq<Sent>, base: seq<Packet>, s: Sent)
    requires Belongs(config, s)
    ensures Carried(config, log + [s]).elements
         == Carried(config, log).elements + if config.useBeacon then [ToBeacon(s)] else []
    ensures base + Carried(config, log + [s]).packets
         == (base + Carried(config, log).packets) + TransmitPackets(config, ToBluetooth(s))
  {
    assert (log + [s])[..|log|] == log;
    Associate(base, Carried(config, log).packets, TransmitPackets(config, ToBluetooth(s)));
  }

  lemma Associate<T>(a: seq<T>, b: seq<T>, c: seq<T>)
    ensures (a + b) + c == a + (b + c)
  {
  }

  // ----- Cycles and runs

  /** The nine messages of `send_single_messages`, with the counters `k` at its start. */
  function Cycle(enc: Encoders, uas: Uas, k: Counters): (log: seq<Sent>)
    ensures |log| == 9
  {
    seq(9, i requires 0 <= i < 9 => SentMessage(Buffer(enc, uas, i + 1), Add8(k[KindOf(i)], Rank(i))))
  }

  /** The messages alone. */
  function MessagesOf(log: seq<Sent>): (ms: seq<Message>)
    requires forall i :: 0 <= i < |log| ==> log[i].SentMessage?
  {
    seq(|log|, i requires 0 <= i < |log| => log[i].message)
  }

  lemma CycleInOrder(enc: Encoders, uas: Uas, k: Counters)
    ensures MessagesOf(Cycle(enc, uas, k)) == Messages(enc, uas)
    ensures InOrder(enc, uas, MessagesOf(Cycle(enc, uas, k)))
  {
    hide Buffer, InOrder;
    MessagesInOrder(enc, uas);
    assert MessagesOf(Cycle(enc, uas, k)) == Messages(enc, uas);
  }

  lemma CycleSlots(enc: Encoders, uas: Uas, k: Counters)
    ensures Cycle(enc, uas, k)[..3]
         == [SentMessage(Buffer(enc, uas, 1), k[BASIC_ID]), SentMessage(Buffer(enc, uas, 2), Add8(k[BASIC_ID], 1)),
             SentMessage(Buffer(enc, uas, 3), k[LOCATION])]
    ensures Cycle(enc, uas, k)[3..6]
         == [SentMessage(Buffer(enc, uas, 4), k[AUTH]), SentMessage(Buffer(enc, uas, 5), Add8(k[AUTH], 1)),
             SentMessage(Buffer(enc, uas, 6), Add8(k[AUTH], 2))]
    ensures Cycle(enc, uas, k)[6..]
         == [SentMessage(Buffer(enc, uas, 7), k[SELF_ID]), SentMessage(Buffer(enc, uas, 8), k[SYSTEM]),
             SentMessage(Buffer(enc, uas, 9), k[OPERATOR_ID])]
  {
    hide Buffer;
    var c := Cycle(enc, uas, k);
    forall b: byte
      ensures Add8(b, 0) == b
    {
    }
    assert c[0] == SentMessage(Buffer(enc, uas, 1), k[BASIC_ID]);
    assert c[2] == SentMessage(Buffer(enc, uas, 3), k[LOCATION]);
    assert c[3] == SentMessage(Buffer(enc, uas, 4), k[AUTH]);
    assert c[6] == SentMessage(Buffer(enc, uas, 7), k[SELF_ID]);
    assert c[7] == SentMessage(Buffer(enc, uas, 8), k[SYSTEM]);
    assert c[8] == SentMessage(Buffer(enc, uas, 9), k[OPERATOR_ID]);
  }

  lemma CycleParts(enc: Encoders, uas: Uas, k: Counters, l: Counters)
    ensures k[AUTH] == l[AUTH] ==> Cycle(enc, uas, k)[3..6] == Cycle(enc, uas, l)[3..6]
    ensures k[SELF_ID..PACKED] == l[SELF_ID..PACKED] ==> Cycle(enc, uas, k)[6..] == Cycle(enc, uas, l)[6..]
  {
    assert k[SELF_ID..PACKED][0] == k[SELF_ID] && k[SELF_ID..PACKED][1] == k[SYSTEM]
        && k[SELF_ID..PACKED][2] == k[OPERATOR_ID];
    assert l[SELF_ID..PACKED][0] == l[SELF_ID] && l[SELF_ID..PACKED][1] == l[SYSTEM]
        && l[SELF_ID..PACKED][2] == l[OPERATOR_ID];
  }

  function NextCycle(k: Counters): (r: Counters) {
    [Add8(k[BASIC_ID], 2), Add8(k[LOCATION], 1), Add8(k[AUTH], 3), Add8(k[SELF_ID], 1),
     Add8(k[SYSTEM], 1), Add8(k[OPERATOR_ID], 1), k[PACKED]]
  }

  function SingleCounters(cycles: nat): (k: Counters) {
    if cycles == 0 then Zeros(7) else NextCycle(SingleCounters(cycles - 1))
  }

  function SingleRun(enc: Encoders, uass: seq<Uas>): (log: seq<Sent>)
    ensures |log| == 9 * |uass|
  {
    if uass == [] then []
    else SingleRun(enc, uass[..|uass| - 1]) + Cycle(enc, uass[|uass| - 1], SingleCounters(|uass| - 1))
  }

  /** The rounds of `send_packs`, from the `i`th to the tenth: each carrier takes the next value. */
  function PackCycle(config: Config, pack: Pack, k: byte, rounds: nat): (log: seq<Sent>)
    ensures |log| == rounds
  {
    if rounds == 0 then []
    else PackCycle(config, pack, k, rounds - 1) + [Round(config, pack, Add8(k, Stride(config, rounds - 1)))]
  }

  function Round(config: Config, pack: Pack, k: byte): (s: Sent) {
    SentPack(pack, k, Add8(k, if config.useBeacon then 1 else 0))
  }

  /** How many counter values `i` rounds use up. */
  function Stride(config: Config, i: nat): (n: nat) {
    if config.useBeacon && config.useBt5 then 2 * i else i
  }

  function PackRun(config: Config, enc: Encoders, uass: seq<Uas>): (log: seq<Sent>)
    ensures |log| == 10 * |uass|
  {
    if uass == [] then []
    else PackRun(config, enc, uass[..|uass| - 1])
         + PackCycle(config, MakePack(enc, Messages(enc, uass[|uass| - 1])),
                     Low8(Stride(config, 10 * (|uass| - 1))), 10)
  }

  /** The counters after `c` cycles: 2c for Basic ID, 3c for Auth and c for the rest, modulo 256. */
  function CountersOf(c: nat): (k: Counters) {
    [Low8(2 * c), Low8(c), Low8(3 * c), Low8(c), Low8(c), Low8(c), 0]
  }

  lemma NextCycleOf(c: nat)
    ensures NextCycle(CountersOf(c)) == CountersOf(c + 1)
  {
    hide Low8, Add8;
    AddWraps(2 * c, 2);
    AddWraps(c, 1);
    AddWraps(3 * c, 3);
  }

  lemma {:induction false} SingleCountersAre(c: nat)
    ensures SingleCounters(c) == CountersOf(c)
  {
    hide NextCycle, CountersOf;
    if c > 0 {
      SingleCountersAre(c - 1);
      NextCycleOf(c - 1);
    } else {
      NoCounters();
    }
  }

  lemma NoCounters()
    ensures Zeros(7) == CountersOf(0)
  {
  }

  lemma CounterOfKind(c: nat, kind: nat)
    requires kind < PACKED
    ensures SingleCounters(c)[kind] == Low8(Count(kind, 9 * c))
  {
    hide CountersOf, Count, PerCycle, Low8;
    SingleCountersAre(c);
    CountAfterCycles(kind, c);
    CountersPerCycle(c, kind);
  }

  lemma CountersPerCycle(c: nat, kind: nat)
    requires kind < PACKED
    ensures CountersOf(c)[kind] == Low8(c * PerCycle(kind))
  {
    hide Low8;
    assert c * 1 == c && c * 2 == 2 * c && c * 3 == 3 * c;
  }

  /** The `i`th message of a run in single mode, over any number of cycles: the message of its slot,
      encoded from the data of its cycle, with the number of messages of its kind before it. */
  lemma {:induction false} SingleRunAt(enc: Encoders, uass: seq<Uas>, i: nat)
    requires i < 9 * |uass|
    ensures SingleRun(enc, uass)[i] == SentMessage(Messages(enc, uass[i / 9])[i % 9], CounterAt(i))
  {
    hide Buffer, Count, SingleCounters, Low8, Add8;
    var c := |uass| - 1;
    if i < 9 * c {
      SingleRunAt(enc, uass[..c], i);
    } else {
      var slot := i - 9 * c;
      CycleCounter(c, slot);
      assert i % 9 == slot && i / 9 == c;
    }
  }

  lemma CycleCounter(c: nat, slot: nat)
    requires slot < 9
    ensures Add8(SingleCounters(c)[KindOf(slot)], Rank(slot)) == Low8(Count(KindOf(slot), 9 * c + slot))
  {
    CounterOfKind(c, KindOf(slot));
    CountOfSlot(c, slot);
    AddWraps(Count(KindOf(slot), 9 * c), Rank(slot));
  }

  lemma {:induction false} PackCycleAt(config: Config, pack: Pack, k: byte, rounds: nat, i: nat)
    requires i < rounds
    ensures PackCycle(config, pack, k, rounds)[i] == Round(config, pack, Add8(k, Stride(config, i)))
  {
    if i < rounds - 1 {
      PackCycleAt(config, pack, k, rounds - 1, i);
    }
  }

  lemma PackCounter(config: Config, c: nat, i: nat)
    ensures Add8(Low8(Stride(config, 10 * c)), Stride(config, i)) == Low8(Stride(config, 10 * c + i))
  {
    AddWraps(Stride(config, 10 * c), Stride(config, i));
  }

  lemma {:induction false} PackRoundAt(config: Config, enc: Encoders, uass: seq<Uas>, i: nat)
    requires i < 10 * |uass|
    ensures PackRun(config, enc, uass)[i]
         == SentPack(MakePack(enc, Messages(enc, uass[i / 10])), Low8(Stride(config, i)),
                     Low8(Stride(config, i) + if config.useBeacon then 1 else 0))
  {
    hide Low8, Add8, Stride, MakePack, Messages, PackCycle;
    var c := |uass| - 1;
    if i < 10 * c {
      PackRoundAt(config, enc, uass[..c], i);
      assert uass[..c][i / 10] == uass[i / 10];
    } else {
      var r := i - 10 * c;
      assert i / 10 == c;
      PackCycleAt(config, MakePack(enc, Messages(enc, uass[c])), Low8(Stride(config, 10 * c)), 10, r);
      PackCounter(config, c, r);
      AddWraps(Stride(config, i), if config.useBeacon then 1 else 0);
    }
  }

  /** The `i`th round of a run in pack mode, over any number of cycles: the pack made from the data of
      its cycle, ten times over, with counter i where there is one carrier, 2i on Wi-Fi and 2i + 1 on
      Bluetooth where there are both. */
  lemma PackRunAt(config: Config, enc: Encoders, uass: seq<Uas>, i: nat)
    requires i < 10 * |uass|
    ensures PackRun(config, enc, uass)[i].SentPack?
    ensures PackRun(config, enc, uass)[i].pack == MakePack(enc, Messages(enc, uass[i / 10]))
    ensures config.useBeacon ==>
              PackRun(config, enc, uass)[i].beaconCounter == Low8(if config.useBt5 then 2 * i else i)
    ensures config.useBt5 ==>
              PackRun(config, enc, uass)[i].bt5Counter == Low8(if config.useBeacon then 2 * i + 1 else i)
  {
    hide Low8, MakePack, Messages, PackRun;
    PackRoundAt(config, enc, uass, i);
  }

  // ----- What receivers see

  /** One message or one pack with one counter value: the octets from the application code on are the
      same on Wi-Fi and in every Bluetooth command, each read by the length fields it carries, and
      they hold the counter and the body. */
  lemma CarriersAgree(handle: byte, m: Message, pack: Pack, counter: byte)
    requires pack[2] <= 9
    ensures WifiPayload(WifiBeacon.ElementText(counter, m)) == Some(Payload(counter, m))
    ensures Parse(AdvertisingDataPacket(m, counter)).SetAdvertisingData?
            && AdPayload(Parse(AdvertisingDataPacket(m, counter)).data) == Some(Payload(counter, m))
    ensures Parse(ExtendedDataPacket(handle, m, counter)).SetExtendedData?
            && AdPayload(Parse(ExtendedDataPacket(handle, m, counter)).data) == Some(Payload(counter, m))
    ensures WifiPayload(WifiBeacon.ElementText(counter, PackBody(pack))) == Some(Payload(counter, PackBody(pack)))
    ensures Parse(ExtendedPackPacket(handle, pack, counter)).SetExtendedData?
            && AdPayload(Parse(ExtendedPackPacket(handle, pack, counter)).data)
               == Some(Payload(counter, PackBody(pack)))
  {
    WifiBeacon.ElementTextRoundTrip(counter, m);
    WifiBeacon.ElementTextRoundTrip(counter, PackBody(pack));
    ParseData(handle, m, counter);
    ParsePack(handle, pack, counter);
    AdRoundTrip(counter, m);
    AdRoundTrip(counter, PackBody(pack));
  }

  /** Pack mode refines single mode: whatever the encoders do, and also when they fail and leave a
      stale buffer, a receiver finds in the pack, in order, exactly the nine messages that single
      mode transmits from the same data. */
  lemma PackRefinesSingle(enc: Encoders, uas: Uas, k: Counters, slot: nat)
    requires slot < 9
    ensures Cycle(enc, uas, k)[slot].message == Messages(enc, uas)[slot]
    ensures enc.pack(Messages(enc, uas)).Some? ==>
              && Unpack(PackBody(MakePack(enc, Messages(enc, uas)))).Some?
              && |Unpack(PackBody(MakePack(enc, Messages(enc, uas)))).value| == 9
              && Unpack(PackBody(MakePack(enc, Messages(enc, uas)))).value[slot]
                 == Cycle(enc, uas, k)[slot].message
  {
    var ms := Messages(enc, uas);
    if enc.pack(ms).Some? {
      UnpackMadePack(enc, ms);
    }
  }

  /** When the pack cannot be encoded, what is sent is a pack without messages. */
  lemma FailedPackIsEmpty(enc: Encoders, ms: seq<Message>)
    requires |ms| == 9 && enc.pack(ms).None?
    ensures PackBody(MakePack(enc, ms)) == [0, 0, 0] && Unpack(PackBody(MakePack(enc, ms))) == Some([])
  {
    assert MakePack(enc, ms) == Zeros(228);
    var body: seq<byte> := [0, 0, 0];
    assert Zeros(228)[..3] == body;
    assert Unpack(body).Some? && Unpack(body).value == [];
  }

  lemma UnpackMadePack(enc: Encoders, ms: seq<Message>)
    requires |ms| == 9 && enc.pack(ms).Some?
    ensures Unpack(PackBody(MakePack(enc, ms))) == Some(ms)
  {
    var header := [enc.pack(ms).value.0, enc.pack(ms).value.1, 9];
    UnpackFlatten(header, ms);
    assert PackBody(MakePack(enc, ms)) == header + Flatten(ms);
  }

  predicate AllBelong(config: Config, log: seq<Sent>) {
    forall i :: 0 <= i < |log| ==> Belongs(config, log[i])
  }

  function Transmissions(config: Config, log: seq<Sent>): (ts: seq<Transmission>)
    requires AllBelong(config, log)
    ensures Matches(config, ts)
  {
    seq(|log|, i requires 0 <= i < |log| => ToBluetooth(log[i]))
  }

  /** The commands sent in a run are those of a session with the controller. */
  lemma {:induction false} CarriedIsSession(config: Config, log: seq<Sent>)
    requires AllBelong(config, log)
    ensures Carried(config, log).packets == TransmitAll(config, Transmissions(config, log))
  {
    if log != [] {
      var front, s := log[..|log| - 1], log[|log| - 1];
      CarriedIsSession(config, front);
      TransmissionsGrow(config, front, s);
      assert log == front + [s];
    }
  }

  lemma TransmissionsGrow(config: Config, log: seq<Sent>, s: Sent)
    requires AllBelong(config, log) && Belongs(config, s)
    ensures AllBelong(config, log + [s])
    ensures TransmitAll(config, Transmissions(config, log + [s]))
         == TransmitAll(config, Transmissions(config, log)) + TransmitPackets(config, ToBluetooth(s))
  {
    var ts := Transmissions(config, log + [s]);
    assert ts[..|log|] == Transmissions(config, log);
  }

  /** And there is one element for everything sent, in order. */
  lemma {:induction false} CarriedElements(config: Config, log: seq<Sent>, i: nat)
    requires AllBelong(config, log) && config.useBeacon && i < |log|
    ensures |Carried(config, log).elements| == |log|
    ensures Carried(config, log).elements[i] == ToBeacon(log[i])
  {
    hide ToBeacon, ToBluetooth, TransmitPackets;
    var n := |log| - 1;
    if n > 0 {
      CarriedElements(config, log[..n], if i < n then i else 0);
    } else {
      assert log[..n] == [];
    }
  }

  /** With one advertiser there is one command for everything sent, in order. */
  lemma {:induction false} CarriedPackets(config: Config, log: seq<Sent>, i: nat)
    requires AllBelong(config, log) && OneAdvertiser(config) && i < |log|
    ensures |Carried(config, log).packets| == |log|
    ensures [Carried(config, log).packets[i]] == TransmitPackets(config, ToBluetooth(log[i]))
  {
    hide ToBeacon, TransmitPackets;
    var n := |log| - 1;
    OnePacket(config, log[n]);
    if n > 0 {
      CarriedPackets(config, log[..n], if i < n then i else 0);
    } else {
      assert log[..n] == [];
    }
  }

  lemma OnePacket(config: Config, s: Sent)
    requires Belongs(config, s) && OneAdvertiser(config)
    ensures |TransmitPackets(config, ToBluetooth(s))| == 1
  {
  }

  /** The payload a receiver of the advertiser finds once the command was carried out. */
  function Received(c: Command): (p: Option<seq<byte>>) {
    match c
    case SetAdvertisingData(data) => AdPayload(data)
    case SetExtendedData(_, _, data) => AdPayload(data)
    case _ => None
  }

  lemma CommandIsReceived(config: Config, s: Sent, p: Packet)
    requires Belongs(config, s) && OneAdvertiser(config)
    requires [p] == TransmitPackets(config, ToBluetooth(s))
    ensures Received(Parse(p))
         == if s.SentMessage? then Some(Payload(s.counter, s.message))
            else Some(Payload(s.bt5Counter, PackBody(s.pack)))
  {
    hide Parse, AdOctets, AdPayload, TransmitPackets;
    TransmitCommands(config, ToBluetooth(s));
    assert Commands([p])[0] == Parse(p);
  }

  lemma SingleRunBelongs(config: Config, enc: Encoders, uass: seq<Uas>)
    requires !config.usePacks
    ensures AllBelong(config, SingleRun(enc, uass))
  {
    hide SingleRun;
    forall i | 0 <= i < 9 * |uass|
      ensures Belongs(config, SingleRun(enc, uass)[i])
    {
      SingleRunAt(enc, uass, i);
    }
  }

  /** A run in single mode as receivers see it: the `i`th element and the `i`th command carry the
      `i`th message, with the number of messages of its kind before it as the counter. */
  lemma SingleRunIsReceived(config: Config, enc: Encoders, uass: seq<Uas>, i: nat)
    requires !config.usePacks && i < 9 * |uass|
    ensures var o := Carried(config, SingleRun(enc, uass));
            var p := Payload(CounterAt(i), Messages(enc, uass[i / 9])[i % 9]);
            && (config.useBeacon ==> |o.elements| == 9 * |uass| && WifiPayload(o.elements[i]) == Some(p))
            && (OneAdvertiser(config) ==> |o.packets| == 9 * |uass| && Received(Parse(o.packets[i])) == Some(p))
  {
    hide SingleRun, Carried, Received, TransmitPackets, WifiPayload, Buffer, CounterAt, OneAdvertiser;
    var log := SingleRun(enc, uass);
    SingleRunBelongs(config, enc, uass);
    SingleRunAt(enc, uass, i);
    if config.useBeacon {
      CarriedElements(config, log, i);
      WifiBeacon.ElementTextRoundTrip(log[i].counter, log[i].message);
    }
    if OneAdvertiser(config) {
      CarriedPackets(config, log, i);
      CommandIsReceived(config, log[i], Carried(config, log).packets[i]);
    }
  }

  lemma PackRunBelongs(config: Config, enc: Encoders, uass: seq<Uas>)
    requires config.usePacks
    ensures AllBelong(config, PackRun(config, enc, uass))
  {
    hide PackRun;
    forall i | 0 <= i < 10 * |uass|
      ensures Belongs(config, PackRun(config, enc, uass)[i])
    {
      PackRunAt(config, enc, uass, i);
    }
  }

  /** A run in pack mode as receivers see it. */
  lemma PackRunIsReceived(config: Config, enc: Encoders, uass: seq<Uas>, i: nat)
    requires config.usePacks && i < 10 * |uass|
    ensures var o := Carried(config, PackRun(config, enc, uass));
            var body := PackBody(MakePack(enc, Messages(enc, uass[i / 10])));
            && (config.useBeacon ==>
                  && |o.elements| == 10 * |uass|
                  && WifiPayload(o.elements[i]) == Some(Payload(Low8(if config.useBt5 then 2 * i else i), body)))
            && (OneAdvertiser(config) ==>
                  && |o.packets| == 10 * |uass|
                  && Received(Parse(o.packets[i]))
                     == Some(Payload(Low8(if config.useBeacon then 2 * i + 1 else i), body)))
  {
    hide PackRun, Carried, Received, TransmitPackets, WifiPayload, MakePack, Messages;
    var log := PackRun(config, enc, uass);
    PackRunBelongs(config, enc, uass);
    PackRunAt(config, enc, uass, i);
    if config.useBeacon {
      CarriedElements(config, log, i);
      WifiBeacon.ElementTextRoundTrip(log[i].beaconCounter, PackBody(log[i].pack));
    }
    if OneAdvertiser(config) {
      CarriedPackets(config, log, i);
      CommandIsReceived(config, log[i], Carried(config, log).packets[i]);
    }
  }

  // ----- The program

  class Transmitter {
    const config: Config
    const enc: Encoders
    const counters: array<byte>
    const bt: HciSocket
    var elements: seq<string>
    /** What was written to the socket before the first message, and what was sent since. */
    ghost var base: seq<Packet>
    ghost var log: seq<Sent>

    ghost predicate Valid()
      reads this, bt
    {
      && counters.Length == 7
      && elements == Carried(config, log).elements
      && bt.sent == base + Carried(config, log).packets
    }

    constructor (config: Config, enc: Encoders)
      requires Accepted(config)
      ensures Valid() && fresh(counters) && fresh(bt)
      ensures this.config == config && this.enc == enc
      ensures counters[..] == Zeros(7) && log == [] && bt.sent == []
    {
      this.config, this.enc := config, enc;
      counters := new byte[7](_ => 0);
      elements := [];
      bt := new HciSocket();
      base, log := [], [];
    }

    /** `config->msg_counters[kind]++`. */
    method Next(kind: nat) returns (value: byte)
      requires kind < counters.Length
      modifies counters
      ensures value == old(counters[kind])
      ensures counters[..] == old(counters[..])[kind := Add8(value, 1)]
    {
      value := counters[kind];
      counters[kind] := Add8(value, 1);
    }

    /** `send_message`. */
    method SendMessage(encoded: Message, counter: byte)
      requires Valid() && !config.usePacks
      modifies `elements, `log, bt
      ensures Valid() && log == old(log) + [SentMessage(encoded, counter)]
    {
      CarriedGrows(config, log, base, SentMessage(encoded, counter));
      bt.SendMessage(config, encoded, counter);
      if config.useBeacon {
        var text := WifiBeacon.BuildBeaconMessage(encoded, counter);
        elements := elements + [text];
      }
      log := log + [SentMessage(encoded, counter)];
    }

    /** The message and the increment, as every statement of `send_single_messages` has them. */
    method Send(encoded: Message, kind: nat)
      requires Valid() && !config.usePacks && kind < 7
      modifies `elements, `log, counters, bt
      ensures Valid() && log == old(log) + [SentMessage(encoded, old(counters[kind]))]
      ensures counters[..] == old(counters[..])[kind := Add8(old(counters[kind]), 1)]
    {
      hide Carried;
      var counter := Next(kind);
      SendMessage(encoded, counter);
    }

    /** `send_single_messages`, here in three parts. */
    method SendSingleMessages(uas: Uas)
      requires Valid() && !config.usePacks
      modifies `elements, `log, counters, bt
      ensures Valid() && log == old(log) + Cycle(enc, uas, old(counters[..]))
      ensures InOrder(enc, uas, MessagesOf(log[|old(log)|..]))
      ensures counters[..] == NextCycle(old(counters[..]))
    {
      hide Carried, Cycle, InOrder;
      ghost var k: Counters := counters[..];
      CycleInOrder(enc, uas, k);
      assert (log + Cycle(enc, uas, k))[|log|..] == Cycle(enc, uas, k);
      var encoded: Message := Zeros(25);
      encoded := SendIdAndLocation(uas, encoded);
      CycleParts(enc, uas, k, counters[..]);
      encoded := SendAuth(uas, encoded);
      CycleParts(enc, uas, k, counters[..]);
      SendRest(uas, encoded);
    }

    method SendIdAndLocation(uas: Uas, buffer: Message) returns (encoded: Message)
      requires Valid() && !config.usePacks && buffer == Buffer(enc, uas, 0)
      modifies `elements, `log, counters, bt
      ensures Valid() && encoded == Buffer(enc, uas, 3)
      ensures log == old(log) + Cycle(enc, uas, old(counters[..]))[..3]
      ensures counters[..] == old(counters[..])[BASIC_ID := Add8(old(counters[BASIC_ID]), 2)]
                                               [LOCATION := Add8(old(counters[LOCATION]), 1)]
    {
      hide Carried, Cycle, Low8, Add8;
      CycleSlots(enc, uas, counters[..]);
      encoded := enc.basicId(buffer, uas.basic0);
      assert encoded == Buffer(enc, uas, 1);
      Send(encoded, BASIC_ID);
      encoded := enc.basicId(encoded, uas.basic1);
      assert encoded == Buffer(enc, uas, 2);
      Send(encoded, BASIC_ID);
      encoded := enc.location(encoded, uas.location);
      Send(encoded, LOCATION);
      AddAdds(old(counters[BASIC_ID]), 1, 1);
    }

    method SendAuth(uas: Uas, buffer: Message) returns (encoded: Message)
      requires Valid() && !config.usePacks && buffer == Buffer(enc, uas, 3)
      modifies `elements, `log, counters, bt
      ensures Valid() && encoded == Buffer(enc, uas, 6)
      ensures log == old(log) + Cycle(enc, uas, old(counters[..]))[3..6]
      ensures counters[..] == old(counters[..])[AUTH := Add8(old(counters[AUTH]), 3)]
    {
      hide Carried, Cycle, Low8, Add8;
      CycleSlots(enc, uas, counters[..]);
      encoded := enc.auth(buffer, uas.auth0);
      assert encoded == Buffer(enc, uas, 4);
      Send(encoded, AUTH);
      encoded := enc.auth(encoded, uas.auth1);
      assert encoded == Buffer(enc, uas, 5);
      Send(encoded, AUTH);
      encoded := enc.auth(encoded, uas.auth2);
      Send(encoded, AUTH);
      AddAdds(old(counters[AUTH]), 1, 1);
      AddAdds(old(counters[AUTH]), 2, 1);
    }

    method SendRest(uas: Uas, buffer: Message)
      requires Valid() && !config.usePacks && buffer == Buffer(enc, uas, 6)
      modifies `elements, `log, counters, bt
      ensures Valid()
      ensures log == old(log) + Cycle(enc, uas, old(counters[..]))[6..]
      ensures counters[..] == old(counters[..])[SELF_ID := Add8(old(counters[SELF_ID]), 1)]
                                               [SYSTEM := Add8(old(counters[SYSTEM]), 1)]
                                               [OPERATOR_ID := Add8(old(counters[OPERATOR_ID]), 1)]
    {
      hide Carried, Cycle, Low8, Add8;
      CycleSlots(enc, uas, counters[..]);
      var encoded := enc.selfId(buffer, uas.selfId);
      assert encoded == Buffer(enc, uas, 7);
      Send(encoded, SELF_ID);
      encoded := enc.system(encoded, uas.system);
      assert encoded == Buffer(enc, uas, 8);
      Send(encoded, SYSTEM);
      encoded := enc.operatorId(encoded, uas.operatorId);
      assert encoded == Buffer(enc, uas, 9);
      Send(encoded, OPERATOR_ID);
    }

    /** One round of the loop in `send_packs`. */
    method SendPack(pack: Pack)
      requires Valid() && Accepted(config) && config.usePacks && pack[2] <= 9
      modifies `elements, `log, counters, bt
      ensures Valid() && log == old(log) + [Round(config, pack, old(counters[PACKED]))]
      ensures counters[PACKED] == Add8(old(counters[PACKED]), Stride(config, 1))
    {
      hide WifiBeacon.ElementText, TransmitPackets, Add8;
      ghost var k: byte := counters[PACKED];
      ghost var round := Round(config, pack, k);
      CarriedGrows(config, log, base, round);
      SendPackOnBeacon(pack);
      SendPackOnBt5(pack);
      AddAdds(k, 1, 1);
      AddAdds(k, 1, 0);
      log := log + [round];
    }

    method SendPackOnBeacon(pack: Pack)
      requires counters.Length == 7 && pack[2] <= 9
      modifies `elements, counters
      ensures elements == old(elements) + if config.useBeacon
                                          then [WifiBeacon.ElementText(old(counters[PACKED]), PackBody(pack))]
                                          else []
      ensures counters[PACKED] == Add8(old(counters[PACKED]), if config.useBeacon then 1 else 0)
    {
      if config.useBeacon {
        var counter := Next(PACKED);
        var text := WifiBeacon.BuildBeaconPack(pack, counter);
        elements := elements + [text];
      }
    }

    method SendPackOnBt5(pack: Pack)
      requires counters.Length == 7 && pack[2] <= 9
      modifies counters, bt
      ensures bt.sent == old(bt.sent) + TransmitPackets(config, Packed(pack, old(counters[PACKED])))
      ensures counters[PACKED] == Add8(old(counters[PACKED]), if config.useBt5 then 1 else 0)
    {
      if config.useBt5 {
        var counter := Next(PACKED);
        bt.SendPack(config, pack, counter);
      }
    }

    /** `send_packs`. */
    method SendPacks(uas: Uas)
      requires Valid() && Accepted(config) && config.usePacks
      modifies `elements, `log, counters, bt
      ensures Valid()
      ensures log == old(log) + PackCycle(config, MakePack(enc, Messages(enc, uas)), old(counters[PACKED]), 10)
      ensures counters[PACKED] == Add8(old(counters[PACKED]), Stride(config, 10))
    {
      hide Carried, MakePack, Round;
      var messages, pack := CreateMessagePack(enc, uas);
      ghost var k: byte := counters[PACKED];
      ghost var before := log;
      for i := 0 to 10
        invariant Valid()
        invariant log == before + PackCycle(config, pack, k, i)
        invariant counters[PACKED] == Add8(k, Stride(config, i))
      {
        AddWraps(k as int + Stride(config, i), Stride(config, 1));
        SendPack(pack);
      }
    }

    method RunSingles(uass: seq<Uas>)
      requires Valid() && !config.usePacks && counters[..] == Zeros(7) && log == []
      modifies `elements, `log, counters, bt
      ensures Valid() && log == SingleRun(enc, uass)
    {
      hide Carried, Cycle, PackCycle, MakePack, InitPackets, StopPackets;
      for i := 0 to |uass|
        invariant Valid()
        invariant log == SingleRun(enc, uass[..i]) && counters[..] == SingleCounters(i)
      {
        assert uass[..i + 1][..i] == uass[..i];
        SendSingleMessages(uass[i]);
      }
      assert uass[..|uass|] == uass;
    }

    method RunPacks(uass: seq<Uas>)
      requires Valid() && Accepted(config) && config.usePacks && counters[..] == Zeros(7) && log == []
      modifies `elements, `log, counters, bt
      ensures Valid() && log == PackRun(config, enc, uass)
    {
      hide Carried, Cycle, PackCycle, MakePack, InitPackets, StopPackets;
      for i := 0 to |uass|
        invariant Valid()
        invariant log == PackRun(config, enc, uass[..i]) && counters[PACKED] == Low8(Stride(config, 10 * i))
      {
        assert uass[..i + 1][..i] == uass[..i];
        PackCounter(config, i, 10);
        SendPacks(uass[i]);
      }
      assert uass[..|uass|] == uass;
    }

    /** `main` with one set of data for each round of its loop, as many as there are; without GPS
        there is one. The random address is a parameter. */
    method Run(mac: Mac, uass: seq<Uas>)
      requires Valid() && Accepted(config) && counters[..] == Zeros(7) && log == [] && bt.sent == []
      modifies this, counters, bt
      ensures log == if config.usePacks then PackRun(config, enc, uass) else SingleRun(enc, uass)
      ensures elements == Carried(config, log).elements
      ensures bt.sent == if UsesBluetooth(config)
                         then InitPackets(config, mac) + Carried(config, log).packets + StopPackets(config)
                         else Carried(config, log).packets
    {
      hide Carried, SingleRun, PackRun, InitPackets, StopPackets;
      if UsesBluetooth(config) {
        bt.InitBluetooth(config, mac);
      }
      base := bt.sent;
      if config.usePacks {
        RunPacks(uass);
      } else {
        RunSingles(uass);
      }
      if UsesBluetooth(config) {
        bt.CloseBluetooth(config);
      }
    }
  }
}
