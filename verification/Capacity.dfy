/** The capacity check made before requests are dispatched, for one hybrid worker: it serves both
    roles, so it is asked for the prompt's blocks and for those of the whole output. */
module Capacity {
  import opened Containers
  import opened SchedulerModel
  import opened SchedulerSafety

  datatype Role = PrefillRole | DecodeRole

  /** The first request that cannot fit, and the role it was checked for. */
  datatype Rejection = Rejection(role: Role, index: nat)

  function RequiredBlocks(cfg: Worker, role: Role, r: Req): nat {
    if role.PrefillRole? then Logical(cfg, r) else CeilDiv(r.prefill + r.decode, cfg.blockSize)
  }

  predicate FitsRole(cfg: Worker, role: Role, r: Req) {
    RequiredBlocks(cfg, role, r) <= cfg.numBlocks - cfg.watermark
  }

  method CheckRole(cfg: Worker, role: Role, requests: seq<Req>) returns (rejected: Option<Rejection>)
    ensures rejected.None? ==> forall r :: r in requests ==> FitsRole(cfg, role, r)
    ensures rejected.Some? ==>
              && rejected.value.role == role && rejected.value.index < |requests|
              && !FitsRole(cfg, role, requests[rejected.value.index])
              && forall i :: 0 <= i < rejected.value.index ==> FitsRole(cfg, role, requests[i])
  {
    var available := cfg.numBlocks - cfg.watermark;
    for i := 0 to |requests|
      invariant forall j :: 0 <= j < i ==> FitsRole(cfg, role, requests[j])
    {
      if RequiredBlocks(cfg, role, requests[i]) > available {
        return Some(Rejection(role, i));
      }
    }
    return None;
  }

  lemma {:induction false} PromptFitsWithOutput(cfg: Worker, r: Req)
    requires r.gen == 0
    ensures FitsRole(cfg, DecodeRole, r) ==> FitsRole(cfg, PrefillRole, r)
    ensures FitsRole(cfg, DecodeRole, r) <==> Fits(cfg, r)
  {
    CeilDivMonotone(r.prefill, r.prefill + r.decode, cfg.blockSize);
  }

  /** New requests pass exactly when each fits beside the watermark with its whole output, which is
      what termination needs of them. */
  method ValidateRequestCapacity(cfg: Worker, requests: seq<Req>) returns (rejected: Option<Rejection>)
    requires forall r :: r in requests ==> r.gen == 0
    ensures rejected.None? <==> forall r :: r in requests ==> Fits(cfg, r)
    ensures rejected.Some? ==>
              var role, index := rejected.value.role, rejected.value.index;
              && index < |requests| && !FitsRole(cfg, role, requests[index])
              && (forall i :: 0 <= i < index ==> FitsRole(cfg, role, requests[i]))
              && (role.DecodeRole? ==> forall r :: r in requests ==> FitsRole(cfg, PrefillRole, r))
  {
    hide Fits, FitsRole;
    forall r | r in requests
      ensures FitsRole(cfg, DecodeRole, r) ==> FitsRole(cfg, PrefillRole, r)
      ensures FitsRole(cfg, DecodeRole, r) <==> Fits(cfg, r)
    {
      PromptFitsWithOutput(cfg, r);
    }
    rejected := CheckRole(cfg, PrefillRole, requests);
    if rejected.None? {
      rejected := CheckRole(cfg, DecodeRole, requests);
    }
    if rejected.Some? {
      assert requests[rejected.value.index] in requests;
    }
  }
}
