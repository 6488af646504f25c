/** The RAM-only conversation store: a thread-id-to-thread dictionary
    with strict create and append preconditions
    (moya/memory/in_memory_repository.py). */
module InMemoryRepository {
  import opened Common
  import opened Json
  import opened ODict
  import opened Conversation

  class InMemoryRepository {
    /** `_threads`, in creation order. */
    var threads: ODict<Thread>

    /** Every thread is stored under its own id. */
    ghost predicate Valid()
      reads this
    {
      threads.Valid() && forall k :: k in threads.vals ==> threads.vals[k].threadId == k
    }

    constructor()
      ensures Valid() && threads == Empty()
    {
      threads := Empty();
    }

    /** `create_thread`: ValueError, with the store unchanged, when the id
        is taken; otherwise the thread is stored under its id. */
    method CreateThread(t: Thread) returns (err: Option<Exc>)
      requires Valid()
      modifies this
      ensures Valid()
      ensures t.threadId in old(threads.vals) ==>
                err == Some(Exc(ValueError, "Thread " + t.threadId + " already exists.")) && threads == old(threads)
      ensures t.threadId !in old(threads.vals) ==>
                err == None && threads == old(threads).Put(t.threadId, t)
      ensures err.None? ==> GetThread(t.threadId) == Some(t)
      ensures forall x :: x != t.threadId ==> GetThread(x) == old(GetThread(x))
      ensures err.None? ==> ListThreads() == old(ListThreads()) + [t.threadId]
      ensures err.Some? ==> ListThreads() == old(ListThreads())
    {
      if threads.Has(t.threadId) {
        return Some(Exc(ValueError, "Thread " + t.threadId + " already exists."));
      }
      threads := threads.Put(t.threadId, t);
      return None;
    }

    /** `get_thread`: the stored thread, or None for an unknown id. */
    function GetThread(id: string): (r: Option<Thread>)
      reads this
      ensures r.None? <==> id !in threads.vals
      ensures r.Some? ==> r.value == threads.vals[id]
    {
      threads.Get(id)
    }

    /** `append_message`: ValueError for an unknown id; otherwise that one
        thread gets the message appended and every other thread is unchanged. */
    method AppendMessage(id: string, m: Message) returns (err: Option<Exc>)
      requires Valid()
      modifies this
      ensures Valid()
      ensures id !in old(threads.vals) ==>
                err == Some(Exc(ValueError, "Thread " + id + " does not exist.")) && threads == old(threads)
      ensures id in old(threads.vals) ==>
                err == None && threads == old(threads).Put(id, old(threads.vals[id]).AddMessage(m))
      ensures id in old(threads.vals) ==>
                GetThread(id).Some? && GetThread(id).value.messages == old(threads.vals[id].messages) + [m]
      ensures forall x :: x != id ==> GetThread(x) == old(GetThread(x))
      ensures ListThreads() == old(ListThreads())
    {
      if !threads.Has(id) {
        return Some(Exc(ValueError, "Thread " + id + " does not exist."));
      }
      threads := threads.Put(id, threads.vals[id].AddMessage(m));
      return None;
    }

    /** `list_threads`: exactly the stored ids, each once, in creation
        order (the order itself is stated by how `CreateThread`,
        `AppendMessage` and `DeleteThread` change this listing). */
    function ListThreads(): (ids: seq<string>)
      reads this
      requires Valid()
      ensures forall x :: x in ids <==> GetThread(x).Some?
      ensures forall i, j :: 0 <= i < j < |ids| ==> ids[i] != ids[j]
    {
      threads.keys
    }

    /** `delete_thread`: removes the id if present and does nothing
        otherwise, so deleting twice is deleting once. */
    method DeleteThread(id: string)
      requires Valid()
      modifies this
      ensures Valid()
      ensures threads == old(threads).Remove(id)
      ensures GetThread(id).None?
      ensures forall x :: x != id ==> GetThread(x) == old(GetThread(x))
      ensures id !in old(threads.vals) ==> threads == old(threads)
      ensures id in old(threads.vals) ==>
                exists p :: 0 <= p < |old(ListThreads())| && old(ListThreads())[p] == id
                            && ListThreads() == old(ListThreads())[..p] + old(ListThreads())[p + 1..]
    {
      if id in threads.vals {
        var p := RemoveKeepsOrder(threads, id);
        assert old(ListThreads())[p] == id;
      }
      threads := threads.Remove(id);
    }
  }
}
