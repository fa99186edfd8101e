/** UpnpMapper itself (src/net/upnp.cpp): the calls and the asynchronous handlers that update its fields. */
module UpnpEngine {
  import opened UpnpModel

  class UpnpMapper {
    var generation: int
    var retryCount: int
    var onResult: int
    var done: set<nat>
    var requests: seq<int>
    var pending: multiset<Op>
    var results: seq<Result>
    var attempts: nat

    constructor ()
      ensures Snapshot() == INITIAL
    {
      generation, retryCount, onResult, done := 0, 0, 0, {};
      requests, pending, results, attempts := [], multiset{}, [], 0;
    }

    ghost function Snapshot(): Mapper
      reads this
    {
      Mapper(generation, retryCount, onResult, done, requests, pending, results, attempts)
    }

    method Finish(g: int, ok: bool)
      modifies this`results
      ensures Snapshot() == UpnpModel.Finish(old(Snapshot()), g, ok)
    {
      if g != generation {
        return;
      }
      results := results + [Result(g, onResult, ok)];
    }

    method MapPort(callback: int, env: Env)
      modifies this
      ensures Snapshot() == UpnpModel.MapPort(old(Snapshot()), callback, env)
    {
      hide UpnpModel.Discover;
      generation := generation + 1;
      retryCount := 0;
      onResult := callback;
      attempts := 0;
      Discover(generation, env);
    }

    method Discover(g: int, env: Env)
      modifies this`attempts, this`results, this`requests, this`pending
      ensures Snapshot() == UpnpModel.Discover(old(Snapshot()), g, env)
    {
      if g != generation {
        return;
      }
      hide UpnpModel.Attempt;
      attempts := attempts + 1;
      if !env.bound {
        Finish(g, false);
        return;
      }
      Attempt();
    }

    method Attempt()
      modifies this`requests, this`pending
      ensures Snapshot() == UpnpModel.Attempt(old(Snapshot()))
    {
      var request := |requests|;
      requests := requests + [generation];
      pending := pending + multiset{SsdpReceive(generation, request), SsdpTimer(generation, request, retryCount)};
    }

    /** The handler of the pending receive of a discovery attempt. */
    method Received(op: Op, env: Env)
      requires op in pending && op.SsdpReceive?
      modifies this
      ensures Snapshot() == RunOp(old(Snapshot()), op, env)
    {
      pending := pending - multiset{op};
      if op.request in done {
        return;
      }
      done := done + {op.request};
      if op.generation != generation {
        return;
      }
      if !env.io || !env.found {
        Finish(op.generation, false);
        return;
      }
      FetchControlUrl(op.generation);
    }

    /** The handler of the discovery timer. */
    method SsdpTimedOut(op: Op, env: Env)
      requires op in pending && op.SsdpTimer?
      modifies this
      ensures Snapshot() == RunOp(old(Snapshot()), op, env)
    {
      hide OnSsdpTimer;
      pending := pending - multiset{op};
      TimerTicked(op, env);
    }

    method TimerTicked(op: Op, env: Env)
      requires op.SsdpTimer?
      modifies this`done, this`retryCount, this`pending, this`results
      ensures Snapshot() == OnSsdpTimer(old(Snapshot()), op, env)
    {
      if !env.expired || op.request in done {
        return;
      }
      done := done + {op.request};
      if op.generation != generation {
        return;
      }
      if retryCount + 1 < MAX_RETRIES {
        retryCount := retryCount + 1;
        pending := pending + multiset{RetryTimer(op.generation, retryCount)};
      } else {
        Finish(op.generation, false);
      }
    }

    /** The handler of the pause between attempts. */
    method RetryDue(op: Op, env: Env)
      requires op in pending && op.RetryTimer?
      modifies this
      ensures Snapshot() == RunOp(old(Snapshot()), op, env)
    {
      pending := pending - multiset{op};
      Discover(op.generation, env);
    }

    method FetchControlUrl(g: int)
      modifies this`requests, this`pending
      ensures Snapshot() == if g != generation then old(Snapshot())
                            else UpnpModel.HttpRequest(old(Snapshot()), g, Describe)
    {
      if g != generation {
        return;
      }
      HttpRequest(g, Describe);
    }

    method AddPortMapping(g: int)
      modifies this`requests, this`pending
      ensures Snapshot() == if g != generation then old(Snapshot())
                            else UpnpModel.HttpRequest(old(Snapshot()), g, AddMapping)
    {
      if g != generation {
        return;
      }
      HttpRequest(g, AddMapping);
    }

    method HttpRequest(g: int, stage: Stage)
      modifies this`requests, this`pending
      ensures Snapshot() == UpnpModel.HttpRequest(old(Snapshot()), g, stage)
    {
      var request := |requests|;
      requests := requests + [g];
      pending := pending + multiset{HttpTimer(request), Http(g, request, stage, Resolving)};
    }

    /** The handler of a resolve, connect, write or read; the timer's own handler only cancels the socket. */
    method HttpProceeded(op: Op, env: Env)
      requires op in pending && (op.Http? || op.HttpTimer?)
      modifies this
      ensures Snapshot() == RunOp(old(Snapshot()), op, env)
    {
      pending := pending - multiset{op};
      if op.HttpTimer? || op.request in done {
        return;
      }
      if env.io && op.phase != Reading {
        pending := pending + multiset{op.(phase := NextPhase(op.phase))};
        return;
      }
      done := done + {op.request};
      Respond(op, env.io && env.status2xx, env);
    }

    /** The continuation given to httpRequest. */
    method Respond(op: Op, ok: bool, env: Env)
      requires op.Http?
      modifies this`requests, this`pending, this`results
      ensures Snapshot() == OnResponse(old(Snapshot()), op, ok, env)
    {
      if op.generation != generation {
        return;
      }
      if op.stage == AddMapping {
        Finish(op.generation, ok);
      } else if !ok || !env.found {
        Finish(op.generation, false);
      } else {
        AddPortMapping(op.generation);
      }
    }
  }
}
