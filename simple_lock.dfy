/**
 * The distributed lock of SimpleRedisLock.java: the lock is the store key
 * `"lock:" + name`, held while that key is alive, and its value names the
 * owner, a per-process random prefix followed by the thread id. Releasing runs
 * a compare-and-delete as one script, so only the owner's token is removed.
 */
module SimpleLock {
  import opened Common
  import opened Store

  const KEY_PREFIX := "lock:"

  class SimpleRedisLock {
    const name: string
    const store: KeyValueStore
    /** The process-wide random prefix of owner tokens (a UUID and '-'). */
    const idPrefix: string

    constructor (store: KeyValueStore, name: string, idPrefix: string)
      ensures this.store == store && this.name == name && this.idPrefix == idPrefix
    {
      this.store := store;
      this.name := name;
      this.idPrefix := idPrefix;
    }

    /** The store key of this lock. */
    function Key(): string {
      KEY_PREFIX + name
    }

    /** The owner token of thread `threadId` in this process. */
    function Token(threadId: int): string {
      idPrefix + DecimalString(threadId)
    }

    /** The lock is held at `now`, by whichever owner. */
    predicate Held(now: int)
      reads store
    {
      store.Get(Key(), now).Some?
    }

    /** The lock is held at `now` by thread `threadId`. */
    predicate HeldBy(threadId: int, now: int)
      reads store
    {
      store.Get(Key(), now) == Some(Token(threadId))
    }

    /**
     * `tryLock(timeoutSec)`: takes the lock for `timeoutSec` seconds if nobody
     * holds it. None: the store refused a non-positive `timeoutSec` and the
     * call threw.
     */
    method TryLock(timeoutSec: int, threadId: int, now: int) returns (ok: Option<bool>)
      modifies store`strings
      ensures ok.None? <==> timeoutSec <= 0
      ensures ok.Some? ==> (ok.value <==> !old(Held(now)))
      ensures store.strings == if ok == Some(true) then old(store.strings)[Key() := Entry(Token(threadId), Some(now + timeoutSec))]
                               else old(store.strings)
    {
      if timeoutSec <= 0 {
        return None;
      }
      var taken := store.SetIfAbsent(Key(), Token(threadId), Some(timeoutSec), now);
      return Some(taken);
    }

    /** `unLock()`: releases the lock only if thread `threadId` holds it. */
    method UnLock(threadId: int, now: int)
      modifies store`strings
      ensures store.strings == if old(HeldBy(threadId, now)) then old(store.strings) - {Key()} else old(store.strings)
    {
      var _ := store.CompareAndDelete(Key(), Token(threadId), now);
    }

    /**
     * One owner takes the lock, releases it, and then any other thread can
     * take it; a different thread's release in between changes nothing.
     */
    method HandOver(owner: int, intruder: int, next: int, timeoutSec: int, now: int)
        returns (first: Option<bool>, second: Option<bool>)
      requires owner != intruder
      modifies store`strings
      ensures first == Some(true) ==> second == Some(true)
      ensures first == Some(true) ==> store.strings == old(store.strings)[Key() := Entry(Token(next), Some(now + timeoutSec))]
    {
      first := TryLock(timeoutSec, owner, now);
      TokenInjective(intruder, owner);
      UnLock(intruder, now);
      assert first == Some(true) ==> HeldBy(owner, now);
      UnLock(owner, now);
      second := TryLock(timeoutSec, next, now);
    }

    /** Owner tokens of different threads differ. */
    lemma TokenInjective(t1: int, t2: int)
      ensures Token(t1) == Token(t2) ==> t1 == t2
    {
      if Token(t1) == Token(t2) {
        assert DecimalString(t1) == Token(t1)[|idPrefix|..];
        assert DecimalString(t2) == Token(t2)[|idPrefix|..];
        DecimalInjective(t1, t2);
      }
    }
  }
}
