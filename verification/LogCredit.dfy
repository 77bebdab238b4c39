/** Flow control of the log: the gateway grants bytes, the device spends them on records, and either may be lost
    on the way. */
module LogCredit {
  import opened Bytes

  const GRANT: nat := 256 * 1024
  const LOW_WATER: nat := 128 * 1024
  const UINT32_MAX: nat := 0xFFFF_FFFF
  const HEADER: nat := 16
  const RECORD_MAX: nat := 256

  /** What each side counts, what is on its way in either direction, what has been lost, and all that has been
      granted and spent. */
  datatype Flow = Flow(host: nat, device: nat, credits: seq<nat>, records: seq<nat>, lost: nat, granted: nat,
                       spent: nat)

  datatype Step = Opens | CreditArrives | CreditLost(k: nat) | RecordSent(size: nat) | RecordArrives
                | RecordLost(k: nat)

  function Granted(f: Flow): Flow {
    f.(host := f.host + GRANT, credits := f.credits + [GRANT], granted := f.granted + GRANT)
  }

  function Next(f: Flow, s: Step): Flow {
    match s
    case Opens => if f.host == 0 then Granted(f) else f
    case CreditArrives =>
      if f.credits == [] then f
      else f.(credits := f.credits[1..],
              device := if UINT32_MAX - f.device < f.credits[0] then UINT32_MAX else f.device + f.credits[0])
    case CreditLost(k) =>
      if k >= |f.credits| then f else f.(credits := Without(f.credits, k), lost := f.lost + f.credits[k])
    case RecordSent(size) =>
      if size < HEADER || size > RECORD_MAX || size > f.device then f
      else f.(device := f.device - size, records := f.records + [size], spent := f.spent + size)
    case RecordArrives =>
      if f.records == [] then f
      else
        var size := f.records[0];
        var after := f.(records := f.records[1..], host := if size > f.host then 0 else f.host - size);
        if after.host < LOW_WATER then Granted(after) else after
    case RecordLost(k) =>
      if k >= |f.records| then f else f.(records := Without(f.records, k), lost := f.lost + f.records[k])
  }

  function Run(f: Flow, steps: seq<Step>): Flow
    decreases |steps|
  {
    if steps == [] then f else Run(Next(f, steps[0]), steps[1..])
  }

  function Sum(s: seq<nat>): nat {
    if s == [] then 0 else s[0] + Sum(s[1..])
  }

  lemma {:induction false} SumAppend(a: seq<nat>, b: seq<nat>)
    ensures Sum(a + b) == Sum(a) + Sum(b)
  {
    if a == [] {
      assert a + b == b;
    } else {
      assert (a + b)[1..] == a[1..] + b;
      SumAppend(a[1..], b);
    }
  }

  lemma {:induction false} SumWithout(s: seq<nat>, k: nat)
    requires k < |s|
    ensures Sum(s) == Sum(Without(s, k)) + s[k]
  {
    if k == 0 {
      assert Without(s, k) == s[1..];
    } else {
      SumWithout(s[1..], k - 1);
      assert Without(s, k)[1..] == Without(s[1..], k - 1);
    }
  }

  /** The device spends no more than it was granted. The host counts what the device has, what is on its way, and
      what has been lost: nothing is ever created, and what is lost is never given back. Once open, the host stays
      between the low water and one grant more. */
  predicate Conserved(f: Flow) {
    && f.host == f.device + Sum(f.credits) + Sum(f.records) + f.lost
    && (f.host == 0 || LOW_WATER <= f.host < LOW_WATER + GRANT + 1)
    && f.spent + f.device + Sum(f.credits) <= f.granted
    && forall k :: 0 <= k < |f.records| ==> HEADER <= f.records[k] <= RECORD_MAX
  }

  /** Neither the host's clamp at zero nor the device's saturation is ever reached. */
  predicate Unclamped(f: Flow) {
    && (f.records != [] ==> f.records[0] <= f.host)
    && (f.credits != [] ==> f.device + f.credits[0] <= UINT32_MAX)
  }

  lemma ArrivalConserved(f: Flow)
    requires Conserved(f)
    ensures Conserved(Next(f, RecordArrives)) && Conserved(Next(f, CreditArrives)) && Unclamped(f)
  {
    SumAppend(f.credits, [GRANT]);
  }

  lemma LossConserved(f: Flow, k: nat)
    requires Conserved(f)
    ensures Conserved(Next(f, CreditLost(k))) && Conserved(Next(f, RecordLost(k)))
  {
    if k < |f.credits| {
      SumWithout(f.credits, k);
    }
    if k < |f.records| {
      SumWithout(f.records, k);
    }
  }

  lemma SendConserved(f: Flow, size: nat)
    requires Conserved(f)
    ensures Conserved(Next(f, RecordSent(size))) && Conserved(Next(f, Opens))
  {
    SumAppend(f.records, [size]);
    SumAppend(f.credits, [GRANT]);
  }

  lemma StepConserved(f: Flow, s: Step)
    requires Conserved(f)
    ensures Conserved(Next(f, s)) && Unclamped(f)
  {
    ArrivalConserved(f);
    match s {
      case CreditLost(k) => LossConserved(f, k);
      case RecordLost(k) => LossConserved(f, k);
      case RecordSent(size) => SendConserved(f, size);
      case Opens => SendConserved(f, 0);
      case _ =>
    }
  }

  /** Over every run. */
  lemma {:induction false} RunConserved(f: Flow, steps: seq<Step>)
    requires Conserved(f)
    ensures Conserved(Run(f, steps)) && Unclamped(Run(f, steps))
    decreases |steps|
  {
    if steps == [] {
      StepConserved(f, Opens);
    } else {
      StepConserved(f, steps[0]);
      RunConserved(Next(f, steps[0]), steps[1..]);
    }
  }

  /** A link that has not been opened yet. */
  predicate Closed(f: Flow) {
    f == Flow(0, 0, [], [], 0, 0, 0)
  }

  /** So from a closed link, without any assumption. */
  lemma ClosedConserved(f: Flow, steps: seq<Step>)
    requires Closed(f)
    ensures Conserved(Run(f, steps)) && Unclamped(Run(f, steps))
  {
    RunConserved(f, steps);
  }

  /** Once the low water has been lost, nothing is ever granted again: after the bytes the device still has,
      the log is silent for the rest of the session, whatever happens. */
  lemma {:induction false} Starved(f: Flow, steps: seq<Step>)
    requires Conserved(f) && f.lost >= LOW_WATER
    ensures Run(f, steps).granted == f.granted
    ensures Run(f, steps).spent <= f.spent + f.device + Sum(f.credits)
    decreases |steps|
  {
    if steps != [] {
      StepConserved(f, steps[0]);
      SpendOnly(f, steps[0]);
      Starved(Next(f, steps[0]), steps[1..]);
    }
  }

  lemma SpendOnly(f: Flow, s: Step)
    requires Conserved(f) && f.lost >= LOW_WATER
    ensures var after := Next(f, s);
            && after.granted == f.granted && after.lost >= f.lost
            && after.spent + after.device + Sum(after.credits) <= f.spent + f.device + Sum(f.credits)
  {
    StepConserved(f, s);
    if s.CreditLost? && s.k < |f.credits| {
      SumWithout(f.credits, s.k);
    }
  }

  /** Anything under way may be lost, and then it is counted as lost. */
  lemma AnythingLost(f: Flow, k: nat)
    ensures k < |f.credits| ==>
              var after := Next(f, CreditLost(k));
              after == f.(credits := f.credits[..k] + f.credits[k + 1..], lost := f.lost + f.credits[k])
    ensures k < |f.records| ==>
              var after := Next(f, RecordLost(k));
              after == f.(records := f.records[..k] + f.records[k + 1..], lost := f.lost + f.records[k])
  {
  }

  /** An open link on which nothing is under way. */
  predicate AtRest(f: Flow) {
    f.host > 0 && f.credits == [] && f.records == []
  }

  /** How much to send next: a whole record, but leaving room for a header or nothing. */
  function Piece(device: nat): nat
    requires device >= HEADER
  {
    if device <= RECORD_MAX then device else if device >= RECORD_MAX + HEADER then RECORD_MAX else device - HEADER
  }

  lemma PieceArrives(f: Flow)
    requires Conserved(f) && AtRest(f) && f.device >= HEADER
    ensures var size, after := Piece(f.device), Next(Next(f, RecordSent(Piece(f.device))), RecordArrives);
            && HEADER <= size <= RECORD_MAX && size <= f.device
            && if f.host - size < LOW_WATER then after.granted > f.granted
               else after == f.(host := f.host - size, device := f.device - size, spent := f.spent + size)
  {
    var sent := Next(f, RecordSent(Piece(f.device)));
    assert sent.records == [Piece(f.device)];
    assert sent.records[1..] == f.records;
  }

  /** Sending piece after piece brings the host below the low water, and then it grants. */
  lemma {:induction false} Revives(f: Flow) returns (steps: seq<Step>)
    requires Conserved(f) && AtRest(f) && f.device >= HEADER && f.lost < LOW_WATER
    ensures Run(f, steps).granted > f.granted
    decreases f.device
  {
    var size := Piece(f.device);
    PieceArrives(f);
    var sent := Next(f, RecordSent(size));
    var after := Next(sent, RecordArrives);
    var rest: seq<Step> := [];
    if f.host - size >= LOW_WATER {
      StepConserved(f, RecordSent(size));
      StepConserved(sent, RecordArrives);
      rest := Revives(after);
    }
    steps := [RecordSent(size), RecordArrives] + rest;
    assert steps[1..] == [RecordArrives] + rest && steps[1..][1..] == rest;
    calc {
      Run(f, steps);
      Run(sent, [RecordArrives] + rest);
      Run(after, rest);
    }
  }

  /** Less than a header's worth of credit at rest is the end: nothing can change any more. */
  lemma {:induction false} Stuck(f: Flow, steps: seq<Step>)
    requires AtRest(f) && f.device < HEADER
    ensures Run(f, steps) == f
    decreases |steps|
  {
    if steps != [] {
      Stuck(f, steps[1..]);
    }
  }

  /** Exactly when a link with nothing under way can ever be granted more: when it has not been opened yet, or else
      less than the low water has been lost, and the device still has the credit of a record header. */
  lemma GrantsAgainIff(f: Flow)
    requires Conserved(f) && f.credits == [] && f.records == []
    ensures (exists steps :: Run(f, steps).granted > f.granted)
       <==> f.host == 0 || (f.lost < LOW_WATER && f.lost + HEADER <= f.host)
  {
    if f.host == 0 {
      OpeningGrants(f);
    } else if f.lost < LOW_WATER && f.lost + HEADER <= f.host {
      var steps := Revives(f);
      assert Run(f, steps).granted > f.granted;
    }
    forall steps | f.host > 0 && Run(f, steps).granted > f.granted
      ensures f.lost < LOW_WATER && f.lost + HEADER <= f.host
    {
      if f.lost >= LOW_WATER {
        Starved(f, steps);
      } else if f.device < HEADER {
        Stuck(f, steps);
      }
    }
  }

  /** Opening grants once, and the grant that arrives is what the device may spend. */
  lemma OpeningGrants(f: Flow)
    requires Conserved(f) && f.host == 0 && f.credits == []
    ensures Run(f, [Opens]).granted == f.granted + GRANT
    ensures Run(f, [Opens, CreditArrives]).device == GRANT && Run(f, [Opens, Opens]) == Run(f, [Opens])
  {
    var first := Next(f, Opens);
    assert [Opens][1..] == [];
    assert Run(f, [Opens]) == first;
    assert [Opens, CreditArrives][1..] == [CreditArrives] && [CreditArrives][1..] == [];
    assert [Opens, Opens][1..] == [Opens];
    assert Run(first, [CreditArrives]) == Next(first, CreditArrives);
    assert Run(first, [Opens]) == first;
  }
}
