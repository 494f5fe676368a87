/**
 Single ownership of the RS-485 port (src/utils/modbus/ModbusPortGuard.h) by any number
 of monitor workers (src/network/modbus/ModbusWorker.cpp) and tester workers
 (src/network/workers/TesterWorker.cpp).

 Each method is one slot of one worker; slots of different workers interleave freely, and
 the only state they share is the mutex.
 */
module PortGuard {

  /** The process-wide mutex; the holder is known to the proof only. */
  class PortMutex {
    var locked: bool
    ghost var holder: Guard?

    ghost predicate Valid()
      reads this, holder
    {
      && (locked <==> holder != null)
      && (holder != null ==> holder.locked && holder.mutex == this)
    }

    constructor ()
      ensures Valid() && !locked && holder == null
    {
      locked, holder := false, null;
    }

    method TryLock() returns (ok: bool)
      modifies this`locked
      ensures ok <==> !old(locked)
      ensures locked
    {
      ok := !locked;
      locked := true;
    }

    method Unlock()
      requires locked
      modifies this`locked
      ensures !locked
    {
      locked := false;
    }
  }

  /** RAII ownership: whoever holds a locked guard owns the port. */
  class Guard {
    const mutex: PortMutex
    var locked: bool

    /** A guard believes it is locked exactly when it is the holder. */
    ghost predicate Valid()
      reads this, mutex, mutex.holder
    {
      mutex.Valid() && (locked <==> mutex.holder == this)
    }

    constructor (mutex: PortMutex)
      requires mutex.Valid()
      ensures Valid() && this.mutex == mutex && !locked
    {
      this.mutex, this.locked := mutex, false;
    }

    /** tryLock: never waits; a busy port yields no guard and changes nothing. */
    static method TryLock(mutex: PortMutex) returns (g: Guard?)
      requires mutex.Valid()
      modifies mutex
      ensures mutex.Valid()
      ensures g != null <==> old(!mutex.locked)
      ensures g != null ==> fresh(g) && g.mutex == mutex && g.Valid() && g.locked && mutex.holder == g
      ensures g == null ==> mutex.holder == old(mutex.holder)
    {
      var ok := mutex.TryLock();
      if !ok { return null; }
      var r := new Guard.Adopt(mutex);
      mutex.holder := r;
      return r;
    }

    constructor Adopt(mutex: PortMutex)
      ensures this.mutex == mutex && locked
    {
      this.mutex, this.locked := mutex, true;
    }

    /** Move construction and assignment: ownership passes on, and the mutex stays locked throughout. */
    method MoveFrom(other: Guard)
      requires Valid() && other.Valid() && other.mutex == mutex
      modifies this`locked, other`locked, mutex
      ensures Valid() && other.Valid()
      ensures if other == this then locked == old(locked) && mutex.holder == old(mutex.holder)
              else locked == old(other.locked) && !other.locked
      ensures other != this && old(other.locked) ==> mutex.locked && mutex.holder == this
      ensures other != this && !old(other.locked) && old(!locked) ==> mutex.holder == old(mutex.holder)
    {
      if other != this {
        Release();
        if other.locked {
          mutex.holder := this;
        }
        locked := other.locked;
        other.locked := false;
      }
    }

    /** Releases at most once, however often it is called; another's lock is never touched. */
    method Release()
      requires Valid()
      modifies this`locked, mutex
      ensures Valid() && !locked
      ensures mutex.holder == if old(locked) then null else old(mutex.holder)
    {
      if locked {
        locked := false;
        mutex.Unlock();
        mutex.holder := null;
      }
    }
  }

  /** A slot of one worker, with what the system answers in it. */
  datatype Slot =
    | ConnectToPort(deviceOk: bool)
    | ResetAfterHang
    | Stop
    | LineDrops
    | DoConnect(probeOk: bool, deviceOk: bool)
    | DoDisconnect
    | DestroyMembers
    | DestroyChildren

  datatype Role = Monitor | Tester

  /** A monitor or tester worker, as far as the port is concerned. */
  class PortUser {
    const mutex: PortMutex
    const role: Role
    var portGuard: Guard?
    var hasClient: bool
    var clientOpen: bool
    var connected: bool
    /** The destructor has run over the members, the guard among them. */
    var destroyed: bool

    /** A guard that is present holds the lock, and only its holder has an open client, unless it is being destroyed. */
    ghost predicate Valid()
      reads this, portGuard, mutex, mutex.holder
    {
      && mutex.Valid()
      && (portGuard != null ==> portGuard.mutex == mutex && portGuard.locked && mutex.holder == portGuard)
      && (clientOpen ==> hasClient && (portGuard != null || destroyed))
      && (destroyed ==> portGuard == null)
      && (role.Tester? ==> !destroyed && (hasClient <==> portGuard != null) && (connected ==> hasClient))
    }

    constructor (mutex: PortMutex, role: Role)
      requires mutex.Valid()
      ensures Valid() && this.mutex == mutex && this.role == role && portGuard == null && !clientOpen && !destroyed
    {
      this.mutex, this.role := mutex, role;
      portGuard, hasClient, clientOpen, connected, destroyed := null, false, false, false, false;
    }

    /**
     The lock of another user is left alone, no guard is shared, and a mutex that is locked
     afterwards is ours, or was already another's and still is.
     */
    twostate predicate OthersSafe()
      reads this, mutex
    {
      && (mutex.holder != null ==>
            mutex.holder == portGuard || (mutex.holder == old(mutex.holder) && old(mutex.holder) != old(portGuard)))
      && (old(mutex.holder) != null && old(mutex.holder) != old(portGuard) ==> mutex.holder == old(mutex.holder))
      && (portGuard == null || portGuard == old(portGuard) || fresh(portGuard))
    }

    /** Both workers: keep the guard one has, else try for the lock; a tester also probes the device. */
    method AcquirePort(probeOk: bool) returns (ok: bool)
      requires Valid()
      modifies this`portGuard, mutex
      ensures mutex.Valid() && OthersSafe()
      ensures ok <==> portGuard != null
      ensures ok ==> portGuard.mutex == mutex && portGuard.locked && mutex.holder == portGuard
      ensures ok <==> old(portGuard) != null || (old(!mutex.locked) && (role.Monitor? || probeOk))
      ensures !ok ==> mutex.locked == old(mutex.locked)
      ensures old(portGuard) != null ==> portGuard == old(portGuard)
    {
      if portGuard != null { return true; }
      var g := Guard.TryLock(mutex);
      if g == null { return false; }
      if role.Tester? && !probeOk {
        g.Release();
        return false;
      }
      portGuard := g;
      return true;
    }

    method ReleasePort()
      requires mutex.Valid() && !clientOpen
      requires portGuard != null ==> portGuard.mutex == mutex && portGuard.locked && mutex.holder == portGuard
      modifies this`portGuard, mutex, portGuard
      ensures mutex.Valid() && portGuard == null && OthersSafe()
      ensures old(portGuard) != null ==> !mutex.locked
    {
      if portGuard != null {
        portGuard.Release();
        portGuard := null;
      }
    }

    // ---- Slots of the monitor worker -------------------------------------------------

    method ConnectToPort(deviceOk: bool) returns (ok: bool)
      requires Valid() && role.Monitor? && !destroyed
      modifies this`portGuard, this`hasClient, this`clientOpen, this`connected, mutex
      ensures Valid() && OthersSafe()
      ensures ok <==> deviceOk && (old(portGuard) != null || old(!mutex.locked))
      ensures connected == ok && (ok ==> clientOpen)
    {
      hasClient := true;
      var free := AcquirePort(true);
      if !free {
        connected := false;
        return false;
      }
      if deviceOk {
        clientOpen := true;
      }
      connected := deviceOk;
      return deviceOk;
    }

    method ResetConnectionAfterHang()
      requires Valid() && role.Monitor? && !destroyed
      modifies this, mutex, portGuard
      ensures Valid() && OthersSafe() && portGuard == null && !clientOpen && !connected && !hasClient
      ensures old(portGuard) != null ==> !mutex.locked
    {
      connected := false;
      if hasClient {
        clientOpen := false;
        hasClient := false;
      }
      ReleasePort();
    }

    method StopSlot()
      requires Valid() && role.Monitor? && !destroyed
      modifies this, mutex, portGuard
      ensures Valid() && OthersSafe() && portGuard == null && !clientOpen
      ensures old(portGuard) != null ==> !mutex.locked
    {
      if hasClient { clientOpen := false; }
      ReleasePort();
    }

    /**
     The destructor of a monitor worker, over its members: the guard is released. The client
     is a child object and still there; if no stop has run, it may still be open.
     */
    method DestroyMembers()
      requires Valid() && role.Monitor? && !destroyed
      modifies this`portGuard, this`destroyed, mutex, portGuard
      ensures Valid() && OthersSafe() && destroyed && portGuard == null
      ensures old(portGuard) != null ==> !mutex.locked
    {
      if portGuard != null {
        portGuard.Release();
        portGuard := null;
      }
      destroyed := true;
    }

    /** The destructor of the base, which deletes the children. */
    method DestroyChildren()
      requires Valid() && destroyed
      modifies this`clientOpen, this`hasClient
      ensures Valid() && !clientOpen
    {
      clientOpen, hasClient := false, false;
    }

    // ---- Slots of the tester worker --------------------------------------------------

    method DoConnect(probeOk: bool, deviceOk: bool)
      requires Valid() && role.Tester?
      modifies this, mutex, portGuard
      ensures Valid() && OthersSafe()
      ensures clientOpen <==> deviceOk && (old(portGuard) != null || (old(!mutex.locked) && probeOk))
      ensures !clientOpen && (old(portGuard) != null || old(!mutex.locked)) ==> !mutex.locked
    {
      var free := AcquirePort(probeOk);
      if !free { return; }
      if hasClient {
        clientOpen := false;
        hasClient := false;
        connected := false;
      }
      hasClient := true;
      if deviceOk {
        clientOpen := true;
        connected := true;
      } else {
        hasClient := false;
        ReleasePort();
      }
    }

    /** doDisconnect, and the destructor. */
    method DoDisconnect()
      requires Valid() && role.Tester?
      modifies this, mutex, portGuard
      ensures Valid() && OthersSafe() && portGuard == null && !clientOpen && !connected
      ensures old(portGuard) != null ==> !mutex.locked
    {
      if hasClient {
        clientOpen := false;
        hasClient := false;
        connected := false;
      }
      ReleasePort();
    }

    /** The line of an open client can fail at any time; the guard is kept. */
    method LoseLine()
      requires Valid()
      modifies this`clientOpen
      ensures Valid() && !clientOpen
    {
      clientOpen := false;
    }

    method Perform(slot: Slot)
      requires Valid()
      modifies this, mutex, portGuard
      ensures Valid() && OthersSafe()
    {
      match slot {
        case ConnectToPort(deviceOk) => if role.Monitor? && !destroyed { var _ := ConnectToPort(deviceOk); }
        case ResetAfterHang => if role.Monitor? && !destroyed { ResetConnectionAfterHang(); }
        case Stop => if role.Monitor? && !destroyed { StopSlot(); }
        case LineDrops => LoseLine();
        case DoConnect(probeOk, deviceOk) => if role.Tester? { DoConnect(probeOk, deviceOk); }
        case DoDisconnect => if role.Tester? { DoDisconnect(); }
        case DestroyMembers => if role.Monitor? && !destroyed { DestroyMembers(); }
        case DestroyChildren => if destroyed { DestroyChildren(); }
      }
    }
  }

  // ---- All workers of the process -----------------------------------------------------

  /** Different workers never share a guard. */
  ghost predicate Apart(a: PortUser, b: PortUser)
    reads a, b
  {
    a != b && (a.portGuard != null ==> a.portGuard != b.portGuard)
  }

  /** The mutex is locked only on behalf of one of the workers: a port is never lost. */
  ghost predicate Owned(mutex: PortMutex, users: seq<PortUser>)
    reads mutex, users
  {
    mutex.holder != null ==> exists i :: 0 <= i < |users| && users[i].portGuard == mutex.holder
  }

  ghost predicate SystemOk(mutex: PortMutex, users: seq<PortUser>)
    reads mutex, mutex.holder, users, set i | 0 <= i < |users| :: users[i].portGuard
  {
    && mutex.Valid()
    && (forall i :: 0 <= i < |users| ==> users[i].mutex == mutex && users[i].Valid())
    && (forall i, j :: 0 <= i < j < |users| ==> Apart(users[i], users[j]))
    && Owned(mutex, users)
  }

  /**
   Of the clients open in the process at most one belongs to a worker that is not being
   destroyed; the port is then locked by that worker's guard.
   */
  lemma AtMostOneOpen(mutex: PortMutex, users: seq<PortUser>, i: nat, j: nat)
    requires SystemOk(mutex, users) && i < |users| && j < |users|
    requires users[i].clientOpen && !users[i].destroyed
    ensures mutex.locked && mutex.holder == users[i].portGuard
    ensures users[j].clientOpen ==> i == j || users[j].destroyed
  {
    if i < j {
      assert Apart(users[i], users[j]);
    } else if j < i {
      assert Apart(users[j], users[i]);
    }
  }

  /** The mutex is locked exactly when one of the workers has a guard, which is then the holder. */
  lemma LockedIsOwned(mutex: PortMutex, users: seq<PortUser>)
    requires SystemOk(mutex, users)
    ensures mutex.locked <==>
              exists i :: 0 <= i < |users| && users[i].portGuard != null && users[i].portGuard == mutex.holder
  {}

  /** Any interleaving of slots of any number of workers keeps ownership single, and every lock owned. */
  method Interleave(mutex: PortMutex, users: seq<PortUser>, schedule: seq<(nat, Slot)>)
    requires SystemOk(mutex, users)
    modifies mutex, users, set i | 0 <= i < |users| :: users[i].portGuard
    ensures SystemOk(mutex, users)
  {
    for k := 0 to |schedule|
      invariant SystemOk(mutex, users)
      invariant forall i :: 0 <= i < |users| ==>
                  users[i].portGuard == null || users[i].portGuard == old(users[i].portGuard)
                    || fresh(users[i].portGuard)
    {
      var (i, slot) := schedule[k];
      if i < |users| {
        users[i].Perform(slot);
      }
    }
  }

  /**
   The exception is real: a worker destroyed before its stop has run gives up the guard
   while its client is still open, and a tester can open a second one.
   */
  method TwoOpenDuringDestruction() returns (monitor: PortUser, tester: PortUser)
    ensures fresh(monitor) && fresh(tester) && monitor != tester && monitor.mutex == tester.mutex
    ensures monitor.Valid() && tester.Valid() && monitor.clientOpen && tester.clientOpen
  {
    var mutex := new PortMutex();
    monitor := new PortUser(mutex, Monitor);
    tester := new PortUser(mutex, Tester);
    var _ := monitor.ConnectToPort(true);
    monitor.DestroyMembers();
    tester.DoConnect(true, true);
  }
}
