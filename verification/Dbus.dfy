/**
 One connection of this process to the session bus, as sd-bus offers it. A
 connection closes, and the daemon takes back its names, once the caller's
 reference and every object slot are gone. Any call may fail; asking for a name
 may even fail after the daemon granted it, when only the answer was lost. Names
 are granted with ALLOW_REPLACEMENT, so at any time another process may take one.
 */
module Dbus {

  const EEXIST := 17

  /** A RequestRelease sent to the owner of a name. */
  datatype Question = Question(name: string, path: string, priority: int)

  class Connection {
    var handle: bool        // the caller's own reference
    var serviced: bool      // a service thread is using the connection
    var names: set<string>  // names the daemon holds for this connection
    var slots: set<string>  // registered object paths, each a reference
    ghost var taken: set<string>    // names granted to this connection and taken by others since
    ghost var refused: bool         // some request on this connection failed or was turned down
    ghost var allowed: set<string>  // names whose owner agreed to let this connection replace it
    ghost var asked: seq<Question>  // every RequestRelease sent

    ghost predicate Closed()
      reads this
    {
      !handle && slots == {} && names == {}
    }

    /** The names in `granted` were gained; any of the names held may have been lost. */
    twostate predicate Gained(granted: set<string>)
      reads this
    {
      && names !! taken && names <= old(names) + granted
      && names + taken == old(names) + old(taken) + granted
    }

    ghost predicate InUse()
      reads this
    {
      handle && !serviced && names !! taken
    }

    constructor OpenUser()
      ensures InUse() && names == {} && taken == {} && slots == {} && allowed == {} && !refused
      ensures asked == []
    {
      handle, serviced, names, taken, slots, allowed, refused, asked := true, false, {}, {}, {}, {}, false, [];
    }

    /** Other processes take some of the names held. */
    method LoseNames()
      requires names !! taken
      modifies this`names, this`taken
      ensures Gained({})
    {
      var lost: set<string> := *;
      names, taken := names - lost, taken + (names * lost);
    }

    // An sd-bus connection belongs to one thread at a time: calls need `!serviced`.

    method AddObject(path: string) returns (ok: bool)
      requires InUse()
      modifies this
      ensures slots == (if ok then old(slots) + {path} else old(slots)) && (ok ==> path !in old(slots))
      ensures InUse() && Gained({}) && allowed == old(allowed) && asked == old(asked)
      ensures refused == (old(refused) || !ok)
    {
      ok := *;
      ok := ok && path !in slots;
      refused := refused || !ok;
      if ok {
        slots := slots + {path};
      }
      LoseNames();
    }

    /** The reservation protocol lets nobody replace an owner that did not agree. A
        name that is granted may be lost again before the answer is read. */
    method RequestName(name: string, replace: bool) returns (r: int)
      requires InUse()
      requires replace ==> name in allowed
      modifies this
      ensures InUse() && slots == old(slots) && allowed == old(allowed) && asked == old(asked)
      ensures r >= 0 ==> Gained({name})
      ensures r == -EEXIST ==> Gained({})
      ensures Gained({}) || Gained({name})
      ensures refused == (old(refused) || (r < 0 && (replace || r != -EEXIST)))
    {
      r := *;
      refused := refused || (r < 0 && (replace || r != -EEXIST));
      var granted: bool := *;
      if r >= 0 || (r != -EEXIST && granted) {
        names, taken := names + {name}, taken - {name};
      }
      LoseNames();
    }

    /** Asks the owner of a name to let go of it, and waits for the answer. */
    method CallRequestRelease(name: string, path: string, priority: int) returns (r: int, accepted: bool)
      requires InUse()
      modifies this`allowed, this`asked, this`refused, this`names, this`taken
      ensures InUse() && Gained({})
      ensures refused == (old(refused) || r < 0 || !accepted)
      ensures allowed == if r >= 0 && accepted then old(allowed) + {name} else old(allowed)
      ensures asked == old(asked) + [Question(name, path, priority)]
    {
      r, accepted := *, *;
      asked := asked + [Question(name, path, priority)];
      refused := refused || r < 0 || !accepted;
      if r >= 0 && accepted {
        allowed := allowed + {name};
      }
      LoseNames();
    }

    method ReleaseName(name: string)
      requires InUse()
      modifies this
      ensures InUse() && slots == old(slots) && refused == old(refused)
    {
      var ok: bool := *;
      if ok {
        names := names - {name};
      }
      LoseNames();
    }

    method SlotUnref(path: string)
      requires InUse()
      modifies this
      ensures InUse() && slots == old(slots) - {path} && refused == old(refused)
      ensures Gained({}) && asked == old(asked)
    {
      slots := slots - {path};
      LoseNames();
    }

    method Unref()
      requires InUse()
      modifies this
      ensures !handle && slots == old(slots) && refused == old(refused)
      ensures slots == {} ==> names == {}
      ensures slots != {} ==> Gained({})
    {
      handle := false;
      LoseNames();
      if slots == {} {
        names := {};
      }
    }
  }
}
