/** The per-provider counting semaphore (`internal/providers/semaphore.go`).

    The semaphore is a buffered channel used for its length only, and a separate counter `active` that
    lags behind it: acquiring sends first and increments later, releasing receives first and decrements
    later. The class runs each operation whole; `SemaphoreProtocol` cuts them at those points and lets any
    number of threads interleave. */
module Semaphore {

  const DEFAULT_MAX_CONCURRENT: nat := 200

  class Semaphore {
    const capacity: nat
    var length: nat
    var active: int

    ghost predicate Valid()
      reads this
    {
      length <= capacity && active == length && capacity > 0
    }

    constructor (capacity: int)
      ensures Valid() && length == 0
      ensures this.capacity == if capacity <= 0 then DEFAULT_MAX_CONCURRENT else capacity
    {
      this.capacity := if capacity <= 0 then DEFAULT_MAX_CONCURRENT else capacity;
      length, active := 0, 0;
    }

    /** `sendFirst` is Go's choice when the channel has room and the context is also done. A caller
        that finds the channel full waits until its context is done. */
    method Acquire(cancelled: bool, sendFirst: bool) returns (ok: bool)
      requires Valid()
      modifies this
      ensures Valid()
      ensures ok <==> old(length) < capacity && (!cancelled || sendFirst)
      ensures length == old(length) + if ok then 1 else 0
    {
      if length < capacity && (!cancelled || sendFirst) {
        length := length + 1;
        active := active + 1;
        return true;
      }
      return false;
    }

    method TryAcquire() returns (ok: bool)
      requires Valid()
      modifies this
      ensures Valid()
      ensures ok <==> old(length) < capacity
      ensures length == old(length) + if ok then 1 else 0
    {
      if length < capacity {
        length := length + 1;
        active := active + 1;
        return true;
      }
      return false;
    }

    method Release() returns (warned: bool)
      requires Valid()
      modifies this
      ensures Valid()
      ensures warned <==> old(length) == 0
      ensures length == if warned then 0 else old(length) - 1
    {
      if length > 0 {
        length := length - 1;
        active := active - 1;
        return false;
      }
      return true;
    }
  }
}
