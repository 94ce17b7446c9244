/**
 * The active-tenant state of the tenant provider: the persisted active id,
 * the optimistic switch with revert-or-clear on failure, the choice of the
 * tenant to synchronise with, and the attempted-set that limits automatic
 * synchronisation to once per tenant list.
 */
module TenantContext {
  import opened Base
  import opened Js

  /** The fields of a tenant record the provider reads (`TenantVO`). */
  datatype Tenant = Tenant(id: Option<int>, tenantType: Option<string>)

  /**
   * `readActiveTenantId`. `raw` is the stored entry (None when there is none);
   * `toNumber` is `Number(raw)` kept only when finite (None for NaN and the
   * infinities). Missing, empty or non-finite entries read as no id.
   */
  function ReadActiveTenantId(raw: Option<string>, toNumber: string -> Option<int>): (r: Option<int>)
    ensures r.Some? <==> raw.Some? && raw.value != "" && toNumber(raw.value).Some?
    ensures r.Some? ==> r == toNumber(raw.value)
  {
    if raw.None? || raw.value == "" then None else toNumber(raw.value)
  }

  /**
   * `unwrapTenants`: a present non-zero code rejects with the server message
   * or the fixed fallback; otherwise the data, or an empty list when absent.
   */
  function UnwrapTenants(response: Option<BaseResponse>): (r: Result<Value, string>)
    ensures r.Err? <==> RejectsCode(response)
    ensures r.Err? ==> r.error == OrElse(response.value.message, "获取团队列表失败") && r.error != ""
    ensures r.Ok? && response.Some? && response.value.data.Some? && !Nullish(response.value.data.value) ==>
              r.value == response.value.data.value
    ensures r.Ok? && (response.None? || response.value.data.None? || Nullish(response.value.data.value)) ==>
              r.value == Arr([])
  {
    if RejectsCode(response) then Err(OrElse(response.value.message, "获取团队列表失败"))
    else if response.Some? && response.value.data.Some? then Ok(Coalesce(response.value.data.value, Arr([])))
    else Ok(Arr([]))
  }

  /** `unwrapBoolean`: as `unwrapTenants`, with its own fallback message and `false` as the default. */
  function UnwrapBoolean(response: Option<BaseResponse>): (r: Result<Value, string>)
    ensures r.Err? <==> RejectsCode(response)
    ensures r.Err? ==> r.error == OrElse(response.value.message, "操作失败") && r.error != ""
    ensures r.Ok? && response.Some? && response.value.data.Some? && !Nullish(response.value.data.value) ==>
              r.value == response.value.data.value
    ensures r.Ok? && (response.None? || response.value.data.None? || Nullish(response.value.data.value)) ==>
              r.value == Bool(false)
  {
    if RejectsCode(response) then Err(OrElse(response.value.message, "操作失败"))
    else if response.Some? && response.value.data.Some? then Ok(Coalesce(response.value.data.value, Bool(false)))
    else Ok(Bool(false))
  }

  /** `tenants.some((tenant) => tenant.id === id)` */
  function HasTenant(tenants: seq<Tenant>, id: int): (r: bool)
    ensures r <==> exists i :: 0 <= i < |tenants| && tenants[i].id == Some(id)
    decreases |tenants|
  {
    if tenants == [] then false
    else if tenants[0].id == Some(id) then true
    else
      var r := HasTenant(tenants[1..], id);
      assert forall i :: 0 <= i < |tenants| - 1 ==> tenants[1..][i] == tenants[i + 1];
      r
  }

  /** `tenants.find((tenant) => tenant.tenantType === 'personal')`, as an index (-1 when there is none). */
  function FirstPersonal(tenants: seq<Tenant>): (i: int)
    ensures -1 <= i < |tenants|
    ensures i >= 0 ==> tenants[i].tenantType == Some("personal")
    ensures forall j :: 0 <= j < |tenants| && (i == -1 || j < i) ==> tenants[j].tenantType != Some("personal")
    decreases |tenants|
  {
    if tenants == [] then -1
    else if tenants[0].tenantType == Some("personal") then 0
    else
      var j := FirstPersonal(tenants[1..]);
      assert forall k :: 0 <= k < |tenants| - 1 ==> tenants[1..][k] == tenants[k + 1];
      if j == -1 then -1 else j + 1
  }

  /** `activeTenantId !== null && tenants.some((tenant) => tenant.id === activeTenantId)` */
  predicate ActiveIdValid(active: Option<int>, tenants: seq<Tenant>) {
    active.Some? && HasTenant(tenants, active.value)
  }

  /**
   * The desired id of the auto-sync effect, for a non-empty tenant list: the
   * active id when it names a known tenant, else the personal tenant's id,
   * else the first tenant's id. Whatever it picks names a known tenant.
   */
  function DesiredTenantId(active: Option<int>, tenants: seq<Tenant>): (r: Option<int>)
    requires |tenants| > 0
    ensures ActiveIdValid(active, tenants) ==> r == active
    ensures !ActiveIdValid(active, tenants) ==>
              var p := FirstPersonal(tenants);
              && (p >= 0 && tenants[p].id.Some? ==> r == tenants[p].id)
              && (p == -1 || tenants[p].id.None? ==> r == tenants[0].id)
    ensures r.Some? ==> HasTenant(tenants, r.value)
  {
    var personal := FirstPersonal(tenants);
    if ActiveIdValid(active, tenants) then active
    else if personal >= 0 && tenants[personal].id.Some? then tenants[personal].id
    else tenants[0].id
  }

  /**
   * `canRevert`: the previous id is set, differs from the target and names a
   * tenant of the loaded list (an unloaded list counts as not containing it).
   */
  function CanRevert(previous: Option<int>, target: int, tenants: Option<seq<Tenant>>): (r: bool)
    ensures r <==> && previous.Some? && previous.value != target && tenants.Some?
                   && exists i :: 0 <= i < |tenants.value| && tenants.value[i].id == previous
  {
    previous.Some? && previous.value != target && tenants.Some? && HasTenant(tenants.value, previous.value)
  }

  /** The provider's state: its React state fields, the stored entry and the attempted-set. */
  datatype Snapshot = Snapshot(
    tenants: Option<seq<Tenant>>,
    activeTenantId: Option<int>,
    isActivating: bool,
    isActiveReady: bool,
    activeTenantError: Option<string>,
    lastSyncedTenantId: Option<int>,
    stored: Option<string>,
    attempted: set<int>)

  /** What one call of `setActiveTenant` captured when it began. */
  datatype Activation = Activation(target: int, previous: Option<int>, canRevert: bool)

  /** How the server call of a switch settled; `message` is the thrown error's message ("" when it has none). */
  datatype Outcome = Succeeded | Failed(message: string)

  /** Ready exactly when some id is recorded as synchronised. */
  predicate SyncConsistent(s: Snapshot) {
    s.isActiveReady <==> s.lastSyncedTenantId.Some?
  }

  /**
   * The start of `setActiveTenant(target)`: the switch is optimistic — the
   * active id becomes the target and the error is cleared before the server
   * answers; nothing else changes.
   */
  function BeginSpec(s: Snapshot, target: int): (r: (Snapshot, Activation))
    ensures r.1 == Activation(target, s.activeTenantId, CanRevert(s.activeTenantId, target, s.tenants))
    ensures r.0.activeTenantId == Some(target) && r.0.isActivating && r.0.activeTenantError.None?
    ensures r.0.(activeTenantId := s.activeTenantId, isActivating := s.isActivating,
                 activeTenantError := s.activeTenantError) == s
  {
    (s.(isActivating := true, activeTenantError := None, activeTenantId := Some(target)),
     Activation(target, s.activeTenantId, CanRevert(s.activeTenantId, target, s.tenants)))
  }

  /**
   * The end of `setActiveTenant`. On success the target is persisted and
   * marked as synchronised. On failure nothing is synchronised, the active id
   * reverts to (and persists) the previous one when that was possible and is
   * cleared with the stored entry otherwise, and the error message is never
   * empty. Activation is over on both paths.
   */
  function EndSpec(s: Snapshot, a: Activation, outcome: Outcome, show: int -> string): (r: Snapshot)
    requires a.canRevert ==> a.previous.Some?
    ensures !r.isActivating
    ensures r.tenants == s.tenants && r.attempted == s.attempted
    ensures SyncConsistent(r)
    ensures outcome.Succeeded? ==>
              && r.isActiveReady && r.lastSyncedTenantId == Some(a.target) && r.stored == Some(show(a.target))
              && r.activeTenantId == s.activeTenantId && r.activeTenantError == s.activeTenantError
    ensures outcome.Failed? ==>
              && !r.isActiveReady && r.activeTenantError.Some? && r.activeTenantError.value != ""
              && (outcome.message != "" ==> r.activeTenantError == Some(outcome.message))
    ensures outcome.Failed? && a.canRevert ==> r.activeTenantId == a.previous && r.stored == Some(show(a.previous.value))
    ensures outcome.Failed? && !a.canRevert ==> r.activeTenantId.None? && r.stored.None?
  {
    match outcome
    case Succeeded =>
      s.(stored := Some(show(a.target)), isActiveReady := true, lastSyncedTenantId := Some(a.target),
         isActivating := false)
    case Failed(message) =>
      var reverted :=
        if a.canRevert then s.(activeTenantId := a.previous, stored := Some(show(a.previous.value)))
        else s.(activeTenantId := None, stored := None);
      reverted.(isActiveReady := false, lastSyncedTenantId := None,
                activeTenantError := Some(if message != "" then message else "切换团队失败"),
                isActivating := false)
  }

  /**
   * The auto-sync effect's decision: the id to synchronise with, or None when
   * it returns early — no user, no or an empty tenant list, an activation in
   * progress, no desired id, already ready and synchronised to it, or already
   * attempted for this list. The chosen id always names a known tenant.
   */
  function AutoSyncTarget(s: Snapshot, hasUser: bool): (d: Option<int>)
    ensures d.None? <==> || !hasUser || s.tenants.None? || |s.tenants.value| == 0 || s.isActivating
                         || DesiredTenantId(s.activeTenantId, s.tenants.value).None?
                         || (s.isActiveReady && s.lastSyncedTenantId == DesiredTenantId(s.activeTenantId, s.tenants.value))
                         || DesiredTenantId(s.activeTenantId, s.tenants.value).value in s.attempted
    ensures d.Some? ==> d == DesiredTenantId(s.activeTenantId, s.tenants.value)
    ensures d.Some? ==> d.value !in s.attempted && HasTenant(s.tenants.value, d.value)
  {
    if !hasUser then None
    else if s.tenants.None? || |s.tenants.value| == 0 then None
    else if s.isActivating then None
    else
      var desired := DesiredTenantId(s.activeTenantId, s.tenants.value);
      if desired.None? then None
      else if s.isActiveReady && s.lastSyncedTenantId == desired then None
      else if desired.value in s.attempted then None
      else desired
  }

  /** The auto-sync effect: record the chosen id as attempted and begin switching to it. */
  function AutoSyncSpec(s: Snapshot, hasUser: bool): (r: (Snapshot, Option<Activation>))
    ensures r.1.None? <==> AutoSyncTarget(s, hasUser).None?
    ensures r.1.None? ==> r.0 == s
    ensures r.1.Some? ==> var d := AutoSyncTarget(s, hasUser).value;
              && r.1.value.target == d && d !in s.attempted && r.0.attempted == s.attempted + {d}
              && r.0.activeTenantId == Some(d) && r.0.isActivating
  {
    var d := AutoSyncTarget(s, hasUser);
    if d.None? then (s, None)
    else
      var (next, a) := BeginSpec(s.(attempted := s.attempted + {d.value}), d.value);
      (next, Some(a))
  }

  /** Everything that may happen to the provider while its tenant list stays the same. */
  datatype Event =
    | RunAutoSync(hasUser: bool)
    | UserSwitch(target: int)
    | Settle(activation: Activation, outcome: Outcome)

  /** The state after `events`, and the ids auto-sync began switching to, in order. */
  function Run(s: Snapshot, events: seq<Event>, show: int -> string): (Snapshot, seq<int>)
    decreases |events|
  {
    if events == [] then (s, [])
    else
      var (next, started) :=
        match events[0]
        case RunAutoSync(hasUser) =>
          var (n, a) := AutoSyncSpec(s, hasUser);
          (n, if a.Some? then [a.value.target] else [])
        case UserSwitch(target) => (BeginSpec(s, target).0, [])
        case Settle(a, outcome) =>
          (if a.canRevert && a.previous.None? then s else EndSpec(s, a, outcome, show), []);
      var (final, more) := Run(next, events[1..], show);
      (final, started + more)
  }

  /**
   * Auto-sync tries each tenant at most once per tenant list: whatever
   * switches, settlements and effect runs interleave, the ids it begins with
   * are pairwise distinct and none of them was attempted before.
   */
  lemma {:induction false} AutoSyncAtMostOncePerList(s: Snapshot, events: seq<Event>, show: int -> string)
    ensures var (final, started) := Run(s, events, show);
            && s.attempted <= final.attempted
            && final.tenants == s.tenants
            && (forall i :: 0 <= i < |started| ==> started[i] !in s.attempted && started[i] in final.attempted)
            && (forall i, j :: 0 <= i < j < |started| ==> started[i] != started[j])
    decreases |events|
  {
    if events != [] {
      var (next, first) :=
        match events[0]
        case RunAutoSync(hasUser) =>
          var (n, a) := AutoSyncSpec(s, hasUser);
          (n, if a.Some? then [a.value.target] else [])
        case UserSwitch(target) => (BeginSpec(s, target).0, [])
        case Settle(a, outcome) =>
          (if a.canRevert && a.previous.None? then s else EndSpec(s, a, outcome, show), []);
      assert s.attempted <= next.attempted && next.tenants == s.tenants;
      assert |first| <= 1 && forall i :: 0 <= i < |first| ==> first[i] !in s.attempted && first[i] in next.attempted;
      AutoSyncAtMostOncePerList(next, events[1..], show);
      var (final, more) := Run(next, events[1..], show);
      assert Run(s, events, show) == (final, first + more);
    }
  }

  /**
   * A switch that succeeds leaves the provider on the target, ready and
   * synchronised, and the stored entry reads back as the target whenever
   * `String` and `Number` agree on it.
   */
  lemma SuccessfulSwitch(s: Snapshot, target: int, show: int -> string, toNumber: string -> Option<int>)
    requires show(target) != "" && toNumber(show(target)) == Some(target)
    ensures var (begun, a) := BeginSpec(s, target);
            var r := EndSpec(begun, a, Succeeded, show);
            && r.activeTenantId == Some(target) && r.isActiveReady && r.lastSyncedTenantId == Some(target)
            && r.activeTenantError.None? && !r.isActivating
            && ReadActiveTenantId(r.stored, toNumber) == Some(target)
  {
  }

  /**
   * A switch that fails puts the provider back on the tenant it was on when
   * that tenant is known and different from the target — in memory and in
   * storage — and otherwise leaves it on no tenant with nothing stored.
   */
  lemma FailedSwitch(s: Snapshot, target: int, message: string, show: int -> string, toNumber: string -> Option<int>)
    requires s.activeTenantId.Some? ==> show(s.activeTenantId.value) != ""
                                        && toNumber(show(s.activeTenantId.value)) == s.activeTenantId
    ensures var (begun, a) := BeginSpec(s, target);
            var r := EndSpec(begun, a, Failed(message), show);
            && (CanRevert(s.activeTenantId, target, s.tenants) ==>
                  r.activeTenantId == s.activeTenantId && ReadActiveTenantId(r.stored, toNumber) == s.activeTenantId)
            && (!CanRevert(s.activeTenantId, target, s.tenants) ==>
                  r.activeTenantId.None? && ReadActiveTenantId(r.stored, toNumber).None?)
            && !r.isActiveReady && r.activeTenantError.Some? && !r.isActivating
  {
  }

  /** `TenantProvider`'s state, updated in place by its callbacks and effects. */
  class TenantProvider {
    /** `String(tenantId)`, the text `writeActiveTenantId` stores. */
    const show: int -> string
    var tenants: Option<seq<Tenant>>
    var activeTenantId: Option<int>
    var isActivating: bool
    var isActiveReady: bool
    var activeTenantError: Option<string>
    var lastSyncedTenantId: Option<int>
    var stored: Option<string>
    var attempted: set<int>

    function State(): Snapshot
      reads this
    {
      Snapshot(tenants, activeTenantId, isActivating, isActiveReady, activeTenantError,
               lastSyncedTenantId, stored, attempted)
    }

    /** Mounting: the active id is read from storage; nothing is loaded, activating or synchronised. */
    constructor (raw: Option<string>, toNumber: string -> Option<int>, show: int -> string)
      ensures State() == Snapshot(None, ReadActiveTenantId(raw, toNumber), false, false, None, None, raw, {})
      ensures SyncConsistent(State()) && this.show == show
    {
      this.show := show;
      tenants := None;
      activeTenantId := ReadActiveTenantId(raw, toNumber);
      isActivating := false;
      isActiveReady := false;
      activeTenantError := None;
      lastSyncedTenantId := None;
      stored := raw;
      attempted := {};
    }

    /** The tenant query delivers a (new) list; the attempted-set is cleared. */
    method SetTenants(list: Option<seq<Tenant>>)
      modifies this
      ensures State() == old(State()).(tenants := list, attempted := {})
    {
      tenants := list;
      attempted := {};
    }

    /** `setActiveTenant(target)` up to the server call. */
    method BeginActivation(target: int) returns (a: Activation)
      modifies this
      ensures (State(), a) == BeginSpec(old(State()), target)
      ensures SyncConsistent(old(State())) ==> SyncConsistent(State())
    {
      a := Activation(target, activeTenantId, CanRevert(activeTenantId, target, tenants));
      isActivating := true;
      activeTenantError := None;
      activeTenantId := Some(target);
    }

    /** `setActiveTenant` after the server call; `raised` tells whether the failure is re-thrown. */
    method EndActivation(a: Activation, outcome: Outcome) returns (raised: bool)
      requires a.canRevert ==> a.previous.Some?
      modifies this
      ensures State() == EndSpec(old(State()), a, outcome, show)
      ensures raised <==> outcome.Failed?
    {
      match outcome {
        case Succeeded =>
          stored := Some(show(a.target));
          isActiveReady := true;
          lastSyncedTenantId := Some(a.target);
          raised := false;
        case Failed(message) =>
          isActiveReady := false;
          lastSyncedTenantId := None;
          if a.canRevert {
            activeTenantId := a.previous;
            stored := Some(show(a.previous.value));
          } else {
            activeTenantId := None;
            stored := None;
          }
          activeTenantError := Some(if message != "" then message else "切换团队失败");
          raised := true;
      }
      isActivating := false;
    }

    /** One run of the auto-sync effect. */
    method AutoSync(hasUser: bool) returns (started: Option<Activation>)
      modifies this
      ensures (State(), started) == AutoSyncSpec(old(State()), hasUser)
    {
      if !hasUser || tenants.None? || |tenants.value| == 0 || isActivating {
        return None;
      }
      var desired := DesiredTenantId(activeTenantId, tenants.value);
      if desired.None? || (isActiveReady && lastSyncedTenantId == desired) || desired.value in attempted {
        return None;
      }
      attempted := attempted + {desired.value};
      var a := BeginActivation(desired.value);
      started := Some(a);
    }
  }
}
