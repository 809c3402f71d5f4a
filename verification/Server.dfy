/** The ingest handlers, updating metrics and drop counts in place, against their specification. */
module ServerObject {
  import opened Serials
  import opened Modbus
  import opened LineFit
  import opened Accounting
  import opened MetricsObject
  import opened Ingest

  class Server {
    const setup: Setup
    const metrics: Metrics
    var dropped: multiset<DropReason>
    var decoded: multiset<Block>
    var seen: set<Serial>

    ghost predicate Valid()
      reads this, metrics
    {
      metrics.Valid() && metrics.o == setup.o && Calibrates(setup.o)
    }

    function View(): Service
      reads this, metrics, metrics.calibrator
    {
      Service(metrics.View(), dropped, decoded, seen)
    }

    constructor (setup: Setup)
      requires Calibrates(setup.o)
      ensures Valid() && this.setup == setup && View() == IDLE_SERVICE
      ensures fresh(metrics) && fresh(metrics.calibrator)
    {
      this.setup := setup;
      metrics := new Metrics(setup.o);
      dropped, decoded, seen := multiset{}, multiset{}, {};
    }

    /** Decodes one request and response and updates the metrics; says why when it drops them. */
    method HandleEntry(sn: Serial, e: Entry) returns (drop: Option<DropReason>)
      requires Valid()
      modifies this`decoded, metrics, metrics.calibrator
      ensures Valid()
      ensures drop == match Judge(setup.limits, e) case Dropped(reason) => Some(reason) case Accepted(_) => None
      ensures View() == if drop.Some? then old(View()) else Handled(setup, old(View()), sn, e)
    {
      var start := RequestStartRegister(e.command);
      if start.Err? {
        return Some(BadCommand);
      }
      var block := BlockOf(start.value);
      if block.None? {
        return Some(UnknownBlockStart);
      }
      var parsed := ParseResponse(e.data);
      if parsed.Err? {
        return Some(DropReasonOf(parsed.error));
      }
      match block.value {
        case RealtimeBlock =>
          var d := RealtimeOf(parsed.value);
          var implausible := Implausibility(d, setup.limits);
          if implausible.Some? {
            return implausible;
          }
          UpdateRealtime(sn, d, e);
          decoded := decoded + multiset{RealtimeBlock};
        case ConfigBlock =>
          metrics.UpdateConfig(sn, RatedOf(parsed.value));
          decoded := decoded + multiset{ConfigBlock};
      }
      return None;
    }

    /** A frame that passed the gate: its slot, its integration, and the flush that follows one. */
    method UpdateRealtime(sn: Serial, d: RealtimeData, e: Entry)
      requires Valid()
      modifies metrics, metrics.calibrator
      ensures Valid() && metrics.View() == Taken(setup, old(metrics.View()), sn, RealtimeReading(d), e)
    {
      metrics.Track(sn);
      var integrates := Integrates(setup.o, metrics.View(), sn, d);
      metrics.AccumulateCoulombs(sn, d, e.now);
      if integrates {
        metrics.FlushCoulombState(setup.persisted, false, e.io);
      }
    }

    /** One entry, counted by its reason when it is dropped. */
    method HandleAndCount(sn: Serial, e: Entry)
      requires Valid()
      modifies this`decoded, this`dropped, metrics, metrics.calibrator
      ensures Valid() && View() == Handled(setup, old(View()), sn, e)
    {
      var drop := HandleEntry(sn, e);
      if drop.Some? {
        dropped := dropped + multiset{drop.value};
      }
    }

    /** The entries of an accepted post, in order. */
    method HandleAll(sn: Serial, entries: seq<Entry>)
      requires Valid()
      modifies this`decoded, this`dropped, metrics, metrics.calibrator
      ensures Valid() && View() == HandledAll(setup, old(View()), sn, entries)
    {
      ghost var start := View();
      assert entries[..0] == [];
      for i := 0 to |entries|
        invariant Valid()
        invariant View() == HandledAll(setup, start, sn, entries[..i])
      {
        HandledNext(setup, start, sn, entries, i);
        HandleAndCount(sn, entries[i]);
      }
      assert entries[..|entries|] == entries;
    }

    /** One post: serial, then cap, then its entries in order. */
    method Telemetry(post: Post)
      requires Valid()
      modifies this, metrics, metrics.calibrator
      ensures Valid() && View() == Served(setup, old(View()), post)
    {
      var sn := post.sn;
      if !AcceptsSerial(setup, sn) {
        Refuse(SerialRejected, |post.entries|);
        return;
      }
      var admitted := metrics.Admit(sn);
      if !admitted {
        Refuse(DeviceLimit, |post.entries|);
        return;
      }
      HandleAll(sn, post.entries);
      seen := seen + {sn};
    }

    /** Counts every entry of a refused post as dropped, an empty post as one. */
    method Refuse(reason: DropReason, entries: nat)
      modifies this`dropped
      ensures View() == Refused(old(View()), reason, entries)
    {
      ghost var start := dropped;
      var n := if entries == 0 then 1 else entries;
      for i := 0 to n
        invariant dropped == start + Repeated(reason, i)
      {
        dropped := dropped + multiset{reason};
      }
    }
  }
}
