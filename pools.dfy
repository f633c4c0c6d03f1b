/**
 * The resource pools a container draws from. A pool owns the set of its free
 * values: `Acquire` hands out some free value, `Remove` takes a given value out of
 * the free set and `Release` puts one back. Only this contract is modelled; how a
 * pool chooses among its free values is not.
 */
module Pools {

  import opened Wrappers

  /** The values held in a sequence. */
  function Elems<T>(s: seq<T>): (elems: set<T>)
  {
    set x | x in s
  }

  class Pool<T(==)> {

    /** The values no container holds. */
    var free: set<T>

    constructor (values: set<T>)
      ensures free == values
    {
      free := values;
    }

    /** Takes some free value out of the pool, or fails when there is none. */
    method Acquire() returns (r: Option<T>)
      modifies this
      ensures r.None? <==> old(free) == {}
      ensures r.None? ==> unchanged(this)
      ensures r.Some? ==> r.value in old(free) && free == old(free) - {r.value}
    {
      if free == {} {
        r := None;
      } else {
        var v :| v in free;
        free := free - {v};
        r := Some(v);
      }
    }

    /** Binds a given value: it is no longer free. */
    method Remove(v: T)
      modifies this
      ensures free == old(free) - {v}
    {
      free := free - {v};
    }

    /** Returns a value to the pool. */
    method Release(v: T)
      modifies this
      ensures free == old(free) + {v}
    {
      free := free + {v};
    }
  }
}
