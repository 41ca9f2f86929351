/** What the operating system answers for one device node, and the table of
    open descriptors the driver's open/close calls act on.  The system calls
    themselves (open, fstat, ioctl(EVIOCGBIT), close) are not modelled: their
    outcomes are inputs. */
module Kernel {

  /** fstat: fails, or yields the node's st_rdev (a dev_t, unsigned). */
  datatype Stat = StatFails | StatOk(rdev: nat)

  /** ioctl(EVIOCGBIT(EV_KEY, ...)): fails, or yields the set of key codes whose
      bit is set in the returned bitmask. */
  datatype KeyQuery = QueryFails | KeyBits(bits: set<nat>)

  /** The outcomes of the calls the driver makes on one device node. */
  datatype Node = Node(opens: bool, stat: Stat, keys: KeyQuery)

  /** The process's open file descriptors.  A successful open hands out a
      descriptor that is not already open. */
  class FileTable {
    var open: set<nat>
    var next: nat

    ghost predicate Valid()
      reads this
    {
      forall fd :: fd in open ==> fd < next
    }

    constructor ()
      ensures Valid() && open == {}
    {
      open, next := {}, 0;
    }

    /** open(2): returns a fresh descriptor, or -1 when the node cannot be opened. */
    method Open(succeeds: bool) returns (fd: int)
      requires Valid()
      modifies this
      ensures Valid()
      ensures succeeds ==> fd == old(next) && fd !in old(open) && open == old(open) + {fd} && next == old(next) + 1
      ensures !succeeds ==> fd == -1 && open == old(open) && next == old(next)
    {
      if succeeds {
        fd := next;
        open, next := open + {fd}, next + 1;
      } else {
        fd := -1;
      }
    }

    /** close(2) */
    method Close(fd: nat)
      requires Valid()
      modifies this
      ensures Valid()
      ensures open == old(open) - {fd} && next == old(next)
    {
      open := open - {fd};
    }
  }
}
