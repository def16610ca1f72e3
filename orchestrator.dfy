/**
 * The agent orchestrator: the monitoring registry (an insertion-ordered map from IP
 * id to asset), registration followed by an immediate scan, the scheduled scan tick
 * that collects pending violations, the per-user queries, and the enforcement
 * hand-off. Registration, scanning and enforcement's collaborators are oracles.
 */
module Orchestrator {
  import opened Domain
  import opened JsText
  import opened Enforcement

  /** What registerIP reports: the new id and transaction, a failure record, or an exception. */
  datatype Registration =
    | Registered(ipId: string, txHash: string)
    | RegistrationRejected(error: string)
    | RegistrationThrew(error: string)

  /** A scan of one asset: its matches, or the error scanAll threw. */
  type ScanOracle = MonitoredAsset -> Outcome<seq<Match>>

  /**
   * The result of protectIP: the stored asset with the immediate scan's match count
   * and its first three matches; a rejected registration ("Failed to register IP on
   * Story Protocol"); or an exception caught by the outer handler ("Something went
   * wrong").
   */
  datatype ProtectResult =
    | Protected(asset: MonitoredAsset, matches: nat, top: seq<Match>)
    | NotRegistered(error: string)
    | ProtectFailed(error: string)

  /** The background scan job: never scheduled, scheduled, or stopped (the stopped job stays referenced). */
  datatype ScanJob = NoJob | Running | Stopped

  // ---------------------------------------------------------------- scan tick

  /**
   * One asset's share of a tick: a non-empty scan result is appended to its pending
   * list (created when absent); an empty result or a failed scan leaves it as it was.
   */
  function Absorb(a: MonitoredAsset, found: Outcome<seq<Match>>): (r: MonitoredAsset)
    ensures PendingOf(r) == PendingOf(a) + (if found.Ok? then found.value else [])
    ensures r.(pending := a.pending) == a
    ensures found.Failed? || found.value == [] ==> r == a
  {
    if found.Ok? && |found.value| > 0 then a.(pending := Some(PendingOf(a) + found.value)) else a
  }

  // ---------------------------------------------------------------- registry views

  /** The assets of the registry in insertion order. */
  function InOrder(order: seq<string>, assets: map<string, MonitoredAsset>): (r: seq<MonitoredAsset>)
    requires forall id :: id in order ==> id in assets
    ensures |r| == |order|
    ensures forall i :: 0 <= i < |order| ==> r[i] == assets[order[i]]
  {
    if order == [] then [] else [assets[order[0]]] + InOrder(order[1..], assets)
  }

  lemma InOrderMembers(order: seq<string>, assets: map<string, MonitoredAsset>, a: MonitoredAsset)
    requires forall id :: id in order ==> id in assets
    ensures a in InOrder(order, assets) <==> exists id :: id in order && a == assets[id]
  {
    var values := InOrder(order, assets);
    if a in values {
      var i :| 0 <= i < |values| && values[i] == a;
      assert order[i] in order;
    }
    if id :| id in order && a == assets[id] {
      var i :| 0 <= i < |order| && order[i] == id;
      assert values[i] == a;
    }
  }

  // ---------------------------------------------------------------- status

  /** One line of the monitoring status (the registration time is not modelled). */
  datatype AssetStatus = AssetStatus(ipId: string, name: string, pendingCount: nat)

  datatype MonitoringStatus = MonitoringStatus(total: nat, assets: seq<AssetStatus>)

  /** a.pendingViolations?.length || 0 */
  function StatusLine(a: MonitoredAsset): AssetStatus {
    AssetStatus(a.ipId, a.data.name, |PendingOf(a)|)
  }

  /** A truthy user id selects that user's assets; a falsy one selects every asset. */
  predicate Selected(a: MonitoredAsset, userId: Option<string>) {
    !Truthy(userId) || a.userId == userId.value
  }

  function Statuses(values: seq<MonitoredAsset>, userId: Option<string>): seq<AssetStatus> {
    if values == [] then []
    else (if Selected(values[0], userId) then [StatusLine(values[0])] else []) + Statuses(values[1..], userId)
  }

  /** The status lines are exactly those of the selected assets, and a falsy user id selects them all. */
  lemma {:induction false} StatusMembers(values: seq<MonitoredAsset>, userId: Option<string>)
    ensures forall s :: s in Statuses(values, userId) <==> exists a :: a in values && Selected(a, userId) && s == StatusLine(a)
    ensures !Truthy(userId) ==> |Statuses(values, userId)| == |values|
  {
    if values != [] {
      StatusMembers(values[1..], userId);
      assert values == [values[0]] + values[1..];
    }
  }

  /** Assets with distinct ids give status lines with distinct ids: no asset is listed twice. */
  lemma {:induction false} StatusesDistinct(values: seq<MonitoredAsset>, userId: Option<string>)
    requires forall i, j :: 0 <= i < j < |values| ==> values[i].ipId != values[j].ipId
    ensures forall i, j :: 0 <= i < j < |Statuses(values, userId)| ==>
      Statuses(values, userId)[i].ipId != Statuses(values, userId)[j].ipId
  {
    if values != [] {
      var rest := values[1..];
      StatusesDistinct(rest, userId);
      StatusesAvoid(rest, userId, values[0].ipId);
      var tail := Statuses(rest, userId);
      var lines := Statuses(values, userId);
      if Selected(values[0], userId) {
        assert lines == [StatusLine(values[0])] + tail;
        forall i, j | 0 <= i < j < |lines|
          ensures lines[i].ipId != lines[j].ipId
        {
          assert lines[j] == tail[j - 1];
          if i > 0 {
            assert lines[i] == tail[i - 1];
          }
        }
      } else {
        assert lines == tail;
      }
    }
  }

  /** An id no asset carries appears on no status line. */
  lemma {:induction false} StatusesAvoid(values: seq<MonitoredAsset>, userId: Option<string>, id: string)
    requires forall k :: 0 <= k < |values| ==> values[k].ipId != id
    ensures forall k :: 0 <= k < |Statuses(values, userId)| ==> Statuses(values, userId)[k].ipId != id
  {
    if values != [] {
      StatusesAvoid(values[1..], userId, id);
      var tail := Statuses(values[1..], userId);
      var lines := Statuses(values, userId);
      if Selected(values[0], userId) {
        assert lines == [StatusLine(values[0])] + tail;
        forall k | 1 <= k < |lines|
          ensures lines[k].ipId != id
        {
          assert lines[k] == tail[k - 1];
        }
      } else {
        assert lines == tail;
      }
    }
  }

  // ---------------------------------------------------------------- pending violations

  /** An entry of getPendingViolations: the asset's id and name and its whole pending list. */
  datatype PendingItem = PendingItem(ipId: string, name: string, violations: seq<Match>)

  predicate HasPending(a: MonitoredAsset, userId: string) {
    a.userId == userId && |PendingOf(a)| > 0
  }

  function ItemOf(a: MonitoredAsset): PendingItem {
    PendingItem(a.ipId, a.data.name, PendingOf(a))
  }

  /** The pending entries of userId among `values`, in their order. */
  function PendingFor(values: seq<MonitoredAsset>, userId: string): (r: seq<PendingItem>)
    ensures forall item :: item in r ==> |item.violations| > 0
  {
    if values == [] then []
    else (if HasPending(values[0], userId) then [ItemOf(values[0])] else []) + PendingFor(values[1..], userId)
  }

  /** Collecting pending entries distributes over concatenation, so the registry's order is kept. */
  lemma {:induction false} PendingForAppend(xs: seq<MonitoredAsset>, ys: seq<MonitoredAsset>, userId: string)
    ensures PendingFor(xs + ys, userId) == PendingFor(xs, userId) + PendingFor(ys, userId)
  {
    if xs != [] {
      var head := if HasPending(xs[0], userId) then [ItemOf(xs[0])] else [];
      assert (xs + ys)[0] == xs[0];
      assert (xs + ys)[1..] == xs[1..] + ys;
      PendingForAppend(xs[1..], ys, userId);
      assert PendingFor(xs + ys, userId) == head + PendingFor(xs[1..] + ys, userId);
      assert PendingFor(xs, userId) == head + PendingFor(xs[1..], userId);
    } else {
      assert xs + ys == ys;
    }
  }

  /** Walking one more asset adds its entry, if it has one, at the end. */
  lemma PendingForStep(values: seq<MonitoredAsset>, i: nat, userId: string)
    requires i < |values|
    ensures PendingFor(values[..i + 1], userId) ==
      PendingFor(values[..i], userId) + (if HasPending(values[i], userId) then [ItemOf(values[i])] else [])
  {
    assert values[..i + 1] == values[..i] + [values[i]];
    PendingForAppend(values[..i], [values[i]], userId);
    assert [values[i]][1..] == [];
  }

  /** The entries are exactly those of the user's assets with a non-empty pending list. */
  lemma {:induction false} PendingForMembers(values: seq<MonitoredAsset>, userId: string)
    ensures forall item :: item in PendingFor(values, userId) <==>
      exists a :: a in values && HasPending(a, userId) && item == ItemOf(a)
  {
    if values != [] {
      PendingForMembers(values[1..], userId);
      assert values == [values[0]] + values[1..];
    }
  }

  // ---------------------------------------------------------------- enforcement hand-off

  /**
   * The result of handleEnforcement: the asset is not monitored (and enforcement was
   * not called), or the enforcement result with the success flag and reply message.
   */
  datatype HandleResult =
    | NotMonitored
    | Handled(success: bool, message: string, result: EnforceResult)

  /** A dispute id interpolated into a template literal: an absent one prints as "undefined". */
  function InterpolatedId(disputeId: Option<string>): string {
    if disputeId.Some? then disputeId.value else "undefined"
  }

  /**
   * handleEnforcement's message as written: `...result` is spread after `message`,
   * so a successful result's own `message` (the bare generated text) replaces the
   * composed summary; a failed result has no `message` and the failure text stays.
   */
  function HandledMessageAsWritten(result: EnforceResult): string {
    if result.Enforced? then result.message else "\U{274C} Enforcement failed"
  }

  /** The summary is lost: a successful enforcement's dispute id does not reach the reply. */
  lemma SpreadDropsDisputeId()
    ensures var result := Enforced("Stop", Some("0xD15"), None);
      && result.disputeId.Some?
      && !IsInfix(result.disputeId.value, HandledMessageAsWritten(result))
  {
    var m := HandledMessageAsWritten(Enforced("Stop", Some("0xD15"), None));
    assert |m| == 4;
    forall i, j | 0 <= i <= j <= |m|
      ensures m[i..j] != "0xD15"
    {
      assert |m[i..j]| < 5;
    }
  }

  /**
   * handleEnforcement's message as its authors composed it: on success the summary
   * names the dispute and carries the generated message; on failure the failure text.
   */
  function HandledMessage(result: EnforceResult): (m: string)
    ensures result.Enforced? ==> IsInfix(result.message, m)
    ensures result.Enforced? && result.disputeId.Some? ==> IsInfix(result.disputeId.value, m)
    ensures result.EnforceFailed? ==> m == "\U{274C} Enforcement failed"
  {
    if result.Enforced? then
      var head := "\U{2705} Enforcement action completed!\n\nDispute ID: ";
      var id := InterpolatedId(result.disputeId);
      var tail := "\n\n**Message to send:**\n\n" + result.message;
      var m := head + id + tail;
      assert m[|head + id| + |tail| - |result.message|..|m|] == result.message;
      assert m[|head|..|head| + |id|] == id;
      m
    else "\U{274C} Enforcement failed"
  }

  // ---------------------------------------------------------------- the orchestrator

  class AgentOrchestrator {
    /** The keys of monitoredAssets in insertion order. */
    var order: seq<string>
    /** monitoredAssets: IP id -> asset. */
    var assets: map<string, MonitoredAsset>
    var scanJob: ScanJob

    /** The order lists each key of the map exactly once, and every asset is stored under its own id. */
    ghost predicate Valid()
      reads this
    {
      && (forall id :: id in order <==> id in assets)
      && (forall i, j :: 0 <= i < j < |order| ==> order[i] != order[j])
      && (forall id :: id in assets ==> assets[id].ipId == id)
    }

    constructor()
      ensures Valid()
      ensures order == [] && assets == map[] && scanJob == NoJob
    {
      order := [];
      assets := map[];
      scanJob := NoJob;
    }

    /**
     * protectIP: a failed or throwing registration leaves the registry as it was.
     * On success the asset (the caller's user id, the registration's id and
     * transaction, no pending list) is stored under its id, replacing an asset with
     * that id in place or appended at the end; then the immediate scan reports its
     * count and first three matches, or its exception, after the asset is stored.
     * The scan never touches pending lists.
     */
    method ProtectIP(userId: string, data: IpData, registration: Registration, scan: ScanOracle)
      returns (r: ProtectResult)
      requires Valid()
      modifies this
      ensures Valid()
      ensures scanJob == old(scanJob)
      ensures registration.RegistrationRejected? ==>
        r == NotRegistered(registration.error) && assets == old(assets) && order == old(order)
      ensures registration.RegistrationThrew? ==>
        r == ProtectFailed(registration.error) && assets == old(assets) && order == old(order)
      ensures registration.Registered? ==>
        var asset := MonitoredAsset(registration.ipId, userId, data, registration.txHash, None);
        && assets == old(assets)[registration.ipId := asset]
        && order == (if registration.ipId in old(assets) then old(order) else old(order) + [registration.ipId])
        && r == match scan(asset)
                case Ok(found) => Protected(asset, |found|, Take(found, 3))
                case Failed(error) => ProtectFailed(error)
    {
      match registration
      case RegistrationRejected(error) =>
        return NotRegistered(error);
      case RegistrationThrew(error) =>
        return ProtectFailed(error);
      case Registered(ipId, txHash) =>
        var asset := MonitoredAsset(ipId, userId, data, txHash, None);
        if ipId !in assets {
          order := order + [ipId];
        }
        assets := assets[ipId := asset];
        var found := scan(asset);
        match found
        case Ok(matches) =>
          r := Protected(asset, |matches|, Take(matches, 3));
        case Failed(error) =>
          r := ProtectFailed(error);
    }

    /**
     * The body of the scheduled job: every asset is scanned once, in insertion
     * order; what each scan finds is appended to that asset's pending list, and a
     * scan that throws is skipped. No asset is added or removed.
     */
    method ScanTick(scan: ScanOracle)
      requires Valid()
      modifies this
      ensures Valid()
      ensures order == old(order) && scanJob == old(scanJob)
      ensures assets.Keys == old(assets).Keys
      ensures forall id :: id in assets ==> assets[id] == Absorb(old(assets)[id], scan(old(assets)[id]))
    {
      var registry := assets;
      var i := 0;
      ghost var done: set<string> := {};
      while i < |order|
        invariant 0 <= i <= |order|
        invariant registry.Keys == assets.Keys
        invariant forall k :: 0 <= k < |order| ==> (order[k] in done <==> k < i)
        invariant forall id :: id in registry ==>
          registry[id] == if id in done then Absorb(assets[id], scan(assets[id])) else assets[id]
      {
        var id := order[i];
        var asset := registry[id];
        var found := scan(asset);
        if found.Ok? && |found.value| > 0 {
          registry := registry[id := asset.(pending := Some(PendingOf(asset) + found.value))];
        }
        done := done + {id};
        i := i + 1;
      }
      assets := registry;
    }

    /** startBackgroundScanning: a job is scheduled; the tick body is ScanTick. */
    method StartBackgroundScanning()
      modifies this
      ensures scanJob == Running
      ensures order == old(order) && assets == old(assets)
    {
      scanJob := Running;
    }

    /** stopBackgroundScanning: a scheduled job is stopped (and kept); without one nothing happens. */
    method StopBackgroundScanning()
      modifies this
      ensures old(scanJob) == NoJob ==> scanJob == NoJob
      ensures old(scanJob) != NoJob ==> scanJob == Stopped
      ensures order == old(order) && assets == old(assets)
    {
      if scanJob != NoJob {
        scanJob := Stopped;
      }
    }

    /**
     * getMonitoringStatus: one line per selected asset (the user's own when the user
     * id is truthy, every asset otherwise), the total being their number.
     */
    function GetMonitoringStatus(userId: Option<string>): (r: MonitoringStatus)
      reads this
      requires Valid()
      ensures r.total == |r.assets|
      ensures forall s :: s in r.assets <==>
        exists id :: id in assets && Selected(assets[id], userId) && s == StatusLine(assets[id])
      ensures !Truthy(userId) ==> r.total == |order|
      ensures forall i, j :: 0 <= i < j < |r.assets| ==> r.assets[i].ipId != r.assets[j].ipId
    {
      var values := InOrder(order, assets);
      StatusMembers(values, userId);
      forall i, j | 0 <= i < j < |values|
        ensures values[i].ipId != values[j].ipId
      {
        assert values[i].ipId == order[i] && values[j].ipId == order[j];
      }
      StatusesDistinct(values, userId);
      assert forall a :: a in values <==> exists id :: id in order && a == assets[id] by {
        forall a ensures a in values <==> exists id :: id in order && a == assets[id] {
          InOrderMembers(order, assets, a);
        }
      }
      var lines := Statuses(values, userId);
      MonitoringStatus(|lines|, lines)
    }

    /**
     * getPendingViolations: walks the registry in insertion order and collects an
     * entry for each of the user's assets whose pending list is non-empty.
     */
    method GetPendingViolations(userId: string) returns (items: seq<PendingItem>)
      requires Valid()
      ensures items == PendingFor(InOrder(order, assets), userId)
      ensures forall item :: item in items <==>
        exists id :: id in assets && HasPending(assets[id], userId) && item == ItemOf(assets[id])
      ensures forall item :: item in items ==> |item.violations| > 0 && item.ipId in assets
    {
      var values := InOrder(order, assets);
      items := [];
      var i := 0;
      while i < |values|
        invariant 0 <= i <= |values|
        invariant items == PendingFor(values[..i], userId)
      {
        var asset := values[i];
        PendingForStep(values, i, userId);
        if HasPending(asset, userId) {
          items := items + [ItemOf(asset)];
        }
        i := i + 1;
      }
      assert values[..|values|] == values;
      PendingForMembers(values, userId);
      forall item ensures item in items <==>
        exists id :: id in assets && HasPending(assets[id], userId) && item == ItemOf(assets[id])
      {
        if item in items {
          var a :| a in values && HasPending(a, userId) && item == ItemOf(a);
          InOrderMembers(order, assets, a);
        }
        if id :| id in assets && HasPending(assets[id], userId) && item == ItemOf(assets[id]) {
          InOrderMembers(order, assets, assets[id]);
        }
      }
    }

    /** clearPendingViolations: a known asset's pending list becomes empty; an unknown id changes nothing. */
    method ClearPendingViolations(ipId: string)
      requires Valid()
      modifies this
      ensures Valid()
      ensures order == old(order) && scanJob == old(scanJob)
      ensures ipId !in old(assets) ==> assets == old(assets)
      ensures ipId in old(assets) ==> assets == old(assets)[ipId := old(assets)[ipId].(pending := Some([]))]
    {
      if ipId in assets {
        assets := assets[ipId := assets[ipId].(pending := Some([]))];
      }
    }

    /**
     * handleEnforcement: an id not in the registry is answered without enforcing;
     * otherwise the registered asset is enforced against and the reply reports the
     * outcome with the composed message.
     */
    method HandleEnforcement(ipId: string, violation: Match, options: EnforceOptions, env: EnforcementEnv)
      returns (r: HandleResult, alert: AlertDelivery)
      ensures ipId !in assets ==> r == NotMonitored && alert == NoAlert
      ensures ipId in assets ==>
        && r.Handled?
        && EnforceOutcome(env, assets[ipId], violation, options, r.result, alert)
        && r.success == r.result.Enforced?
        && r.message == HandledMessage(r.result)
    {
      if ipId !in assets {
        return NotMonitored, NoAlert;
      }
      var result;
      result, alert := Enforce(env, assets[ipId], violation, options);
      r := Handled(result.Enforced?, HandledMessage(result), result);
    }
  }
}
