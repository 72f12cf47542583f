/** Replacing a live key and certificate whose files must keep their inodes:
  * both are written in place, so the old pair is journaled first and a crash at
  * any write is undone from the journal. */
module Renew {
  import opened Claims
  import opened Wrappers

  type Bytes = seq<bv8>

  datatype Pair = Pair(key: Bytes, cert: Bytes)

  /** A collision-free digest. */
  datatype Digest = Digest(of: Bytes)

  /** pending-install.json: the digests of the journaled pair. */
  datatype Pending = Pending(key: Digest, cert: Digest)

  function Journal(p: Pair): Pending {
    Pending(Digest(p.key), Digest(p.cert))
  }

  /** The files of one seed. An unlinked journal is not yet gone for good: until
    * the directory is synchronised a power failure may bring it back. */
  class Seed {
    var live: Pair
    var previous: Option<Pair>
    var pending: Option<Pending>
    var unlinked: Option<Pending>
    ghost var issued: set<Pair>      // key and certificate belong together
    ghost var before: Pair           // live before the install the journal is about
    ghost var served: seq<Pair>      // live at each reload of the gateway

    /** Either no install is journaled and the live files are one pair, or one
      * is and the backups hold exactly the pair that was live before it. */
    ghost predicate Recoverable()
      reads this
    {
      && (pending.None? ==> live in issued)
      && (pending.Some? ==> Backed(pending.value))
      && (unlinked.Some? ==> Backed(unlinked.value))
      && (forall i :: 0 <= i < |served| ==> served[i] in issued)
    }

    ghost predicate Backed(j: Pending)
      reads this
    {
      before in issued && previous == Some(before) && j == Journal(before)
    }

    constructor (live: Pair)
      ensures Recoverable() && this.live == live && issued == {live} && pending == None && served == []
    {
      this.live, previous, pending, unlinked := live, None, None, None;
      issued, before, served := {live}, live, [];
    }

    /** A power failure between runs. */
    method PowerFailure()
      requires Recoverable()
      modifies `pending, `unlinked
      ensures Recoverable() && (old(pending).Some? ==> pending == old(pending))
    {
      if unlinked.Some? && pending.None? {
        if * {
          pending := unlinked;
        }
      }
      unlinked := None;
    }

    /** An in-place write: once it is answered the file holds the data; before
      * that it may hold anything. */
    method WriteKey(key: Bytes) returns (reply: Reply)
      modifies `live
      ensures live.cert == old(live).cert && (reply.Done? ==> live.key == key)
    {
      var torn: Bytes := *;
      live := live.(key := torn);
      reply := Outside();
      if reply.Done? {
        live := live.(key := key);
      }
    }

    method WriteCert(cert: Bytes) returns (reply: Reply)
      modifies `live
      ensures live.key == old(live).key && (reply.Done? ==> live.cert == cert)
    {
      var torn: Bytes := *;
      live := live.(cert := torn);
      reply := Outside();
      if reply.Done? {
        live := live.(cert := cert);
      }
    }

    method WriteBoth(p: Pair) returns (reply: Reply)
      modifies `live
      ensures reply.Done? ==> live == p
    {
      reply := WriteKey(p.key);
      if reply.Done? {
        reply := WriteCert(p.cert);
      }
    }

    /** Signals the gateway and waits until it serves the certificate. */
    method Reload() returns (reply: Reply)
      requires live in issued
      modifies `served
      ensures old(served) <= served && forall i :: |old(served)| <= i < |served| ==> served[i] == live
    {
      reply := Outside();
      if reply.Done? {
        served := served + [live];
        reply := Outside();
      }
    }

    /** Backs up the live pair. Each file is replaced all at once, and its
      * directory entry after any earlier unlink. */
    method BackUp() returns (reply: Reply)
      requires Recoverable() && pending.None?
      modifies `previous, `unlinked, `before
      ensures Recoverable() && (reply.Done? ==> previous == Some(live) && before == live)
    {
      reply := Outside();
      if reply.Done? {
        previous, unlinked, before := Some(live), None, live;
      } else if * {
        previous, unlinked := *, None;
      }
    }

    /** Restores the journaled pair, if there is one; it can be interrupted and
      * repeated. */
    method Recover() returns (reply: Reply)
      requires Recoverable()
      modifies `live, `pending, `unlinked, `served
      ensures Recoverable() && old(served) <= served
      ensures pending == old(pending) || pending.None?
      ensures pending.None? ==> live == if old(pending).Some? then before else old(live)
      ensures reply.Done? ==> pending.None?
    {
      if pending.None? {
        return Done;
      }
      if previous.None? || pending.value != Journal(previous.value) {
        return Failed;
      }
      reply := WriteBoth(previous.value);
      if reply.Done? {
        reply := Reload();
      }
      if reply.Done? {
        reply := Unlink();
      }
    }

    method Unlink() returns (reply: Reply)
      requires Recoverable() && pending.Some? && live in issued
      modifies `pending, `unlinked
      ensures Recoverable() && (pending == old(pending) || pending.None?)
      ensures reply.Done? ==> pending.None?
    {
      var acts: bool := *;
      if acts {
        pending, unlinked := None, pending;
      }
      reply := Answered(acts);
    }

    /** Journals the old pair, then writes the new one; a failure restores the
      * old pair. */
    method Install(p: Pair) returns (reply: Reply)
      requires Recoverable() && pending.None? && p in issued
      modifies `live, `previous, `pending, `unlinked, `before, `served
      ensures Recoverable() && old(served) <= served
      ensures reply.Done? ==> pending.None? && live == p
      ensures if pending.None? then live == p || live == old(live) else before == old(live)
    {
      if p == live {
        reply := Outside();
        return;
      }
      reply := BackUp();
      if !reply.Done? {
        return;
      }
      var acts: bool := *;
      if acts {
        pending := Some(Journal(live));
      }
      reply := Answered(acts);
      if !reply.Done? {
        return;
      }
      reply := WriteBoth(p);
      if reply.Done? {
        reply := Reload();
      }
      if reply.Done? {
        reply := Unlink();
      } else if reply.Failed? {
        var recovered := Recover();
        if recovered.Killed? {
          reply := Killed;
        }
      }
    }

    /** One run: an interrupted install is undone first, whatever is due. */
    method Renew(due: bool) returns (reply: Reply)
      requires Recoverable()
      modifies this
      ensures Recoverable() && old(issued) <= issued && old(served) <= served
      ensures reply.Done? ==> pending.None? && live in issued
    {
      reply := Recover();
      if !reply.Done? || !due {
        return;
      }
      var key: Bytes, cert: Bytes := *, *;
      reply := Outside();
      if !reply.Done? {
        return;
      }
      issued := issued + {Pair(key, cert)};
      reply := Install(Pair(key, cert));
    }
  }

  /** Any number of runs, each ending in any way, with power failures between
    * them: the gateway is only ever reloaded onto one pair, and one answered run
    * leaves a whole pair in place. */
  method AllRuns(s: Seed, due: seq<bool>) returns (reply: Reply)
    requires s.Recoverable()
    modifies s
    ensures s.Recoverable() && old(s.served) <= s.served
    ensures forall i :: 0 <= i < |s.served| ==> s.served[i] in s.issued
    ensures reply.Done? && |due| > 0 ==> s.pending.None? && s.live in s.issued
  {
    reply := Done;
    for k := 0 to |due|
      invariant s.Recoverable() && old(s.served) <= s.served
      invariant reply.Done? && k > 0 ==> s.pending.None? && s.live in s.issued
    {
      s.PowerFailure();
      reply := s.Renew(due[k]);
    }
  }
}
