/** One shared send small enough to compute: the meeting, the devices and the run that
  * the results about two wallets speak of exist. */
module TwoCoins {
  import opened Wrappers
  import opened Curve
  import opened Chain
  import opened Derive
  import opened PsbtV2
  import opened Shares
  import opened Soundness
  import opened Fees
  import opened Building
  import opened Joining
  import opened SharedSession
  import opened Protocol
  import opened Completion
  import opened SharedFlow
  import opened TwoDrivers
  import opened Cooperation
  import Dleq
  import ReferenceSigner

  // -------------------------------------------------------------------------
  // A small world

  /** The group of order seven, on which a proof cannot lie. */
  function Small(): Curve
  {
    Curve(7, (x: nat, y: nat) => (x + y) % 7, (x: nat, y: nat) => (x * y) % 7,
          (x: nat) => x, (x: nat) => x, (x: nat) => 0,
          (a: nat, b: nat, share: nat, r: nat, s: nat) => if share == (a * b) % 7 then 1 else 0,
          (a: nat, b: nat) => 1, (a: nat, b: nat) => 1)
  }

  function SmallWorld(): Env
  {
    Env(Small(), (x: nat) => x, (tx: Transaction) => tx.lockTime,
        (tx: Transaction, i: nat, s: Script, v: nat, key: nat, bytes: nat) => true,
        (tx: Transaction, i: nat, prevouts: seq<TxOut>, kind: nat, key: nat, bytes: nat) => false)
  }

  const KEY_A: nat := 1
  const KEY_B: nat := 2

  /** A device that holds one key. */
  function Holding(key: nat): ReferenceSigner.Device
  {
    ReferenceSigner.Device((k: nat) => k == key, (k: nat, scan: nat) => 1,
                           (tx: Transaction, i: nat, s: Script, v: nat, k: nat) => 0, false)
  }

  const TO := Address(3, 4, false)

  /** The transaction both coins come from. */
  const FUNDING := Transaction(2, 500, [], [TxOut(1000, P2wpkh(1)), TxOut(1000, P2wpkh(2))])

  function Coin(key: nat): HalfInput
    requires key == KEY_A || key == KEY_B
  {
    HalfInput(OutPoint(500, key - 1), 0xffff_fffd, Some(TxOut(1000, P2wpkh(key))), Some(FUNDING), [PubKey(key, true)])
  }

  function HalfOf(key: nat, sats: nat): Half
    requires key == KEY_A || key == KEY_B
  { Half(2, 0, [Coin(key)], [TxOut(sats, P2tr(4))]) }

  lemma SmallIsACurve()
    ensures PrimeOrder(Small()) && Dleq.Sound(Small())
  {
    var c := Small();
    forall d: nat | 2 <= d < 7 ensures 7 % d != 0 { SevenIsPrime(d); }
    forall a: nat, b: nat, share: nat, proof: Dleq.Proof | Dleq.Verify(c, a, b, share, proof)
      ensures share == c.mul(a, b)
    { }
  }

  lemma SevenIsPrime(d: nat)
    requires 2 <= d < 7
    ensures 7 % d != 0
  { if d == 2 {} else if d == 3 {} else if d == 4 {} else if d == 5 {} else {} }

  /** Wallet A's half as PSBTv2: one coin, and the payment. */
  function Alone(key: nat, sats: nat): Psbt
    requires key == KEY_A || key == KEY_B
  {
    Psbt(Global(2, Some(0), 0, map[], map[], 1, 1), [Input(SpendOf(Coin(key)), NOTHING_HELD)],
         [Output(sats, NO_SCRIPT, Some(InfoOf(TO)), None)])
  }

  lemma HalfIs(key: nat, sats: nat)
    requires key == KEY_A || key == KEY_B
    requires sats <= 1000
    ensures HalfAsV2(SmallWorld(), HalfOf(key, sats), TO, sats, 1) == Ok((Alone(key, sats), 0))
  {
    var e, half := SmallWorld(), HalfOf(key, sats);
    CoinIsFine(key);
    assert PlaceholderOutputs(e.curve, half, TO) == {0};
    assert HalfPaid(half.outputs) == sats by { assert half.outputs[..0] == []; }
    assert HalfSpent(half.inputs) == 1000 by {
      var inputs := MapSeq((h: HalfInput) => Input(SpendOf(h), NOTHING_HELD), half.inputs);
      OneSpent(inputs);
    }
    assert BuiltV2(half, 0, InfoOf(TO)) == Alone(key, sats);
  }

  lemma OneSpent(inputs: seq<Input>)
    requires |inputs| == 1 && inputs[0].fact.utxo.Some?
    ensures Spent(inputs) == inputs[0].fact.utxo.value.value
  { assert inputs[..0] == []; }

  lemma CoinIsFine(key: nat)
    requires key == KEY_A || key == KEY_B
    ensures CheckInput(SmallWorld(), SpendOf(Coin(key))) && InputKey(SmallWorld(), SpendOf(Coin(key))) == Some(key)
  { }

  // -------------------------------------------------------------------------
  // The meeting

  const SATS: nat := 1001

  function ProposalPsbt(): Psbt
  {
    Psbt(Global(2, Some(0), OPEN_TO_BOTH, map[], map[], 1, 1), [Input(SpendOf(Coin(KEY_A)), NOTHING_HELD)],
         [Output(SATS, NO_SCRIPT, Some(InfoOf(TO)), None)])
  }

  function SessionA(): Record
  {
    var r := Record(7, Start, 10, None, TO, SATS, 1, Proposing, Mine, ProposalPsbt(), [OutPoint(500, 0)], 0, [], None);
    r.(outbox := [ProposalMessage(r)])
  }

  function JoinedTransaction(): Psbt
  {
    Psbt(Global(2, Some(0), 0, map[], map[], 2, 1),
         [Input(SpendOf(Coin(KEY_A)), NOTHING_HELD), Input(SpendOf(Coin(KEY_B)), NOTHING_HELD)],
         [Output(SATS, NO_SCRIPT, Some(InfoOf(TO)), None)])
  }

  function Offer(): Proposal { Proposal(7, 10, TO, SATS, 1, ProposalPsbt()) }

  function Where(): Meeting
  { Meeting(SessionA(), Offer(), HalfOf(KEY_A, 501), HalfOf(KEY_B, 500), 11) }

  lemma AProposes()
    ensures ProposedSession(SmallWorld(), 10, 7, HalfOf(KEY_A, 501), TO, SATS, 1) == Ok(SessionA())
  {
    HalfIs(KEY_A, 501);
    var mine := Alone(KEY_A, 501);
    assert mine.outputs[0 := mine.outputs[0].(amount := SATS)] == ProposalPsbt().outputs;
    assert ShareOfAmount(SATS, Start) == 501 && TermsOk(Small(), TO, SATS, 1);
    assert Proposed(SmallWorld(), HalfOf(KEY_A, 501), TO, SATS, 1) == Ok(ProposalPsbt());
    assert Coins(ProposalPsbt()) == [OutPoint(500, 0)];
  }

  lemma BReads()
    ensures ReadProposal(SmallWorld(), ProposalMessage(SessionA()), 11) == Ok(Offer())
  {
    CoinIsFine(KEY_A);
    var p := ProposalPsbt();
    assert p.outputs[..0] == [] && SilentCount(p.outputs) == 1;
    assert MapSeq(CleanInput, p.inputs) == p.inputs && MapSeq(CleanOutput, p.outputs) == p.outputs;
  }

  lemma JoinedFee()
    ensures FeeOk(JoinedTransaction(), 1)
  {
    hide Spent, Paid, InputsWeight, OutputsBytes, Wanted;
    var p := JoinedTransaction();
    TwoInputs(p.inputs);
    OneOutput(p.outputs);
    assert InputsWeight(p.inputs) == 542 && Spent(p.inputs) == 2000;
    assert OutputsBytes(p.outputs) == 43 && Paid(p.outputs) == SATS;
    assert Weight(p) == 756;
    WantedForThis();
  }

  lemma WantedForThis()
    ensures Wanted(1, 756) == 189
  { }

  lemma TwoInputs(inputs: seq<Input>)
    requires |inputs| == 2 && inputs[0].fact.utxo.Some? && inputs[1].fact.utxo.Some?
    ensures Spent(inputs) == inputs[0].fact.utxo.value.value + inputs[1].fact.utxo.value.value
    ensures InputsWeight(inputs) == 328 + WitnessWeight(inputs[0].fact) + WitnessWeight(inputs[1].fact)
  {
    hide WitnessWeight;
    var one := inputs[..1];
    assert one == [inputs[0]] && one[..0] == [];
    assert Spent(one) == inputs[0].fact.utxo.value.value && InputsWeight(one) == 164 + WitnessWeight(inputs[0].fact);
  }

  lemma OneOutput(outputs: seq<Output>)
    requires |outputs| == 1
    ensures Paid(outputs) == outputs[0].amount && OutputsBytes(outputs) == OutputBytes(outputs[0])
  {
    hide OutputBytes;
    assert outputs[..0] == [];
  }

  lemma BJoins()
    ensures JoinedSession(SmallWorld(), 11, Offer(), HalfOf(KEY_B, 500)).Ok?
    ensures JoinedSession(SmallWorld(), 11, Offer(), HalfOf(KEY_B, 500)).value.psbt == JoinedTransaction()
  {
    HalfIs(KEY_B, 500);
    JoinedFee();
    assert JoinedPsbt(ProposalPsbt(), Alone(KEY_B, 500), 0) == JoinedTransaction();
  }

  lemma TheyMeet()
    ensures Met(SmallWorld(), Where()) && StartOf(SmallWorld(), Where()).b.psbt == JoinedTransaction()
  {
    hide ProposedSession, ReadProposal, JoinedSession;
    AProposes();
    BReads();
    BJoins();
  }

  // -------------------------------------------------------------------------
  // The devices, and the run

  lemma JoinedSkeleton()
    ensures SplitOf(StartOf(SmallWorld(), Where())).skeleton == JoinedTransaction()
    ensures SplitOf(StartOf(SmallWorld(), Where())) == Split({0}, {1}, JoinedTransaction())
    requires Met(SmallWorld(), Where()) && StartOf(SmallWorld(), Where()).b.psbt == JoinedTransaction()
  {
    hide Met, JoinedSession, ReadProposal, ProposedSession;
    var s, p := StartOf(SmallWorld(), Where()), JoinedTransaction();
    MeetingFacts(SmallWorld(), Where());
    assert Skeleton(p) == p by {
      assert MapSeq(BareInput, p.inputs) == p.inputs && MapSeq(BareOutput, p.outputs) == p.outputs;
    }
    assert s.a.mine == [OutPoint(500, 0)];
    assert At(s.a.mine, p.inputs) == {0};
    assert At(s.b.mine, p.inputs) == {1};
  }

  lemma TheyAreEquipped()
    requires Met(SmallWorld(), Where()) && StartOf(SmallWorld(), Where()).b.psbt == JoinedTransaction()
    ensures Equipped(SmallWorld(), SplitOf(StartOf(SmallWorld(), Where())), Holding(KEY_A), Holding(KEY_B))
  {
    hide Met, StartOf, ReferenceSigner.Works, ReferenceSigner.OwnsExactly, ReferenceSigner.Payable, PrimeOrder,
         Dleq.Sound;
    JoinedSkeleton();
    SmallIsACurve();
    LonePays();
    DeviceWorks(KEY_A);
    DeviceWorks(KEY_B);
  }

  lemma DeviceWorks(key: nat)
    requires key == KEY_A || key == KEY_B
    ensures ReferenceSigner.Works(SmallWorld(), Holding(key), JoinedTransaction())
    ensures ReferenceSigner.OwnsExactly(SmallWorld(), Holding(key), JoinedTransaction(), {key - 1})
  {
    hide InputKey;
    var e, p := SmallWorld(), JoinedTransaction();
    CoinIsFine(KEY_A);
    CoinIsFine(KEY_B);
    forall scan | scan in ReferenceSigner.ScanKeys(p.outputs) ensures scan == 3 { }
    assert ReferenceSigner.Proves(e, Holding(key), key, 3);
  }

  lemma LonePays()
    ensures ReferenceSigner.Payable(SmallWorld(), JoinedTransaction())
  {
    hide LoneSender, InputKey, Rank;
    var e, p := SmallWorld(), JoinedTransaction();
    CoinIsFine(KEY_A);
    CoinIsFine(KEY_B);
    assert KeysOf(e, p.inputs) == [1, 2];
    SmallSum(1, 2);
    PaysAtAnyCount(CoinsOf(p.inputs), Rank(e.curve, p.outputs, 0));
  }

  lemma PaysAtAnyCount(coins: seq<OutPoint>, k: nat)
    requires coins != []
    ensures LoneSender(Small(), 3, coins, 3, 4, k).Some?
  {
    hide Lowest;
    SmallSum(4, 1);
    assert InputHash(Small(), coins, 3) == Some(1);
    assert PayWithSecret(Small(), 2, 4, k).Some?;
  }

  lemma SmallSum(a: nat, b: nat)
    ensures Sum(Small(), [a, b]) == (a + b) % 7
  {
    assert [a, b][..1] == [a] && [a][..0] == [];
    assert Sum(Small(), [a]) == a % 7;
  }

  /** Wallet A still owes its proposal, which is how B came to know of it. */
  function FirstDuo(): Duo
    requires JoinedSession(SmallWorld(), 11, Offer(), HalfOf(KEY_B, 500)).Ok?
  {
    var b := JoinedSession(SmallWorld(), 11, Offer(), HalfOf(KEY_B, 500)).value;
    Duo(World(Saved([], Some(SessionA())), false, [ProposalMessage(SessionA())], []),
        World(Saved([], Some(b)), false, [], []))
  }

  /** The two wallets of this world finish: there are steps that take them to the end. */
  lemma TheyFinish(n: Names) returns (turns: seq<Turn>)
    ensures Met(SmallWorld(), Where()) && JoinedSession(SmallWorld(), 11, Offer(), HalfOf(KEY_B, 500)).Ok?
    ensures AllCarried(SmallWorld(), n, FirstDuo(), turns)
    ensures var end := Driven(SmallWorld(), n, FirstDuo(), turns);
      && BothHaveOne(end) && AllQuiet(end)
      && end.a.disk.session.value.stage == Done && end.b.disk.session.value.stage == Done
  {
    hide Met, Driven, AllCarried, Equipped, JoinedSession, ReadProposal, ProposedSession, OriginA, OriginB, DuoStep,
         SplitOf, HonestTurn;
    TheyMeet();
    BJoins();
    TheyAreEquipped();
    var duo := FirstDuo();
    MeetingFacts(SmallWorld(), Where());
    assert PutOut(duo.a) == {ProposalMessage(SessionA())};
    assert FreshlyJoined(SmallWorld(), Where(), duo);
    turns := EveryRunCanFinish(SmallWorld(), n, Where(), [duo], [], Holding(KEY_A), Holding(KEY_B));
  }
}
