// x402 payments: finding the payment event among the logs of a receipt.

module X402Logs {
  import opened Common

  /** The decoded, non-indexed part of a Paid event. */
  datatype PaidEvent = PaidEvent(amount: nat, video: nat)

  /** A receipt log with lower-cased address and topics; `decoded` is None when the event does not parse. */
  datatype Log = Log(address: nat, topics: seq<nat>, decoded: Option<PaidEvent>)

  datatype Expected = Expected(contract: nat, signature: nat, invoice: nat)

  predicate Matches(log: Log, e: Expected) {
    log.address == e.contract && |log.topics| >= 2 && log.topics[0] == e.signature && log.topics[1] == e.invoice
  }

  predicate Pays(log: Log, e: Expected) {
    Matches(log, e) && log.decoded.Some?
  }

  predicate IsFirst(logs: seq<Log>, e: Expected, i: nat) {
    i < |logs| && Pays(logs[i], e) && forall j :: 0 <= j < i ==> !Pays(logs[j], e)
  }

  function FirstPaid(logs: seq<Log>, e: Expected): Option<PaidEvent> {
    if logs == [] then None
    else if Pays(logs[0], e) then logs[0].decoded
    else FirstPaid(logs[1..], e)
  }

  /** The first log that matches and decodes decides; a later one never replaces it. */
  lemma {:induction false} FirstPaidIsFirst(logs: seq<Log>, e: Expected)
    ensures FirstPaid(logs, e).None? <==> forall i :: 0 <= i < |logs| ==> !Pays(logs[i], e)
    ensures FirstPaid(logs, e).Some? ==> exists i: nat :: IsFirst(logs, e, i) && logs[i].decoded == FirstPaid(logs, e)
  {
    if logs != [] && !Pays(logs[0], e) {
      FirstPaidIsFirst(logs[1..], e);
      if FirstPaid(logs, e).Some? {
        var i: nat :| IsFirst(logs[1..], e, i) && logs[1..][i].decoded == FirstPaid(logs, e);
        assert logs[1..][i] == logs[i + 1];
        assert forall j :: 0 < j < i + 1 ==> logs[j] == logs[1..][j - 1];
        assert IsFirst(logs, e, i + 1);
      }
    } else if logs != [] {
      assert IsFirst(logs, e, 0);
    }
  }

  lemma {:induction false} FirstPaidSkips(logs: seq<Log>, e: Expected, n: nat)
    requires n <= |logs| && forall i :: 0 <= i < n ==> !Pays(logs[i], e)
    ensures FirstPaid(logs, e) == FirstPaid(logs[n..], e)
    decreases n
  {
    if n > 0 {
      FirstPaidSkips(logs, e, n - 1);
      assert logs[n - 1..][1..] == logs[n..];
    }
  }

  /** The scan of x402_confirm: skip what does not match, stop at the first event that parses. */
  method ScanLogs(logs: seq<Log>, e: Expected) returns (found: Option<PaidEvent>)
    ensures found == FirstPaid(logs, e)
    ensures found.None? ==> forall i :: 0 <= i < |logs| ==>
              !(logs[i].address == e.contract && |logs[i].topics| >= 2 && logs[i].topics[0] == e.signature
                && logs[i].topics[1] == e.invoice && logs[i].decoded.Some?)
    ensures found.Some? ==> exists i ::
              && 0 <= i < |logs| && logs[i].decoded == found
              && logs[i].address == e.contract && |logs[i].topics| >= 2 && logs[i].topics[0] == e.signature
              && logs[i].topics[1] == e.invoice
              && forall j :: 0 <= j < i ==>
                   !(logs[j].address == e.contract && |logs[j].topics| >= 2 && logs[j].topics[0] == e.signature
                     && logs[j].topics[1] == e.invoice && logs[j].decoded.Some?)
  {
    found := None;
    for i := 0 to |logs|
      invariant found == None
      invariant forall j :: 0 <= j < i ==> !Pays(logs[j], e)
    {
      var log := logs[i];
      if log.address != e.contract { continue; }
      if |log.topics| == 0 { continue; }
      if log.topics[0] != e.signature { continue; }
      if |log.topics| < 2 { continue; }
      if log.topics[1] != e.invoice { continue; }
      if log.decoded.Some? {
        FirstPaidSkips(logs, e, i);
        found := log.decoded;
        break;
      }
    }
    if found.None? { FirstPaidSkips(logs, e, |logs|); }
  }
}
