/** Whom one pass of the event manager marks for a condition variable, and what it leaves of the
    flags: the part that condition variables and barriers have in common. */
module Marking {
  import opened EventManager

  /** Everybody after a broadcast, one thread after a plain signal that nobody handled. */
  function Chosen(flags: CondFlags, sleepers: set<nat>, who: nat): set<nat> {
    if flags.signaled && flags.broadcast then sleepers
    else if flags.signaled && !flags.handled then sleepers * {who}
    else {}
  }

  /** The flags are cleared once anybody was marked. */
  function FlagsAfter(flags: CondFlags, sleepers: set<nat>, who: nat): CondFlags {
    if Chosen(flags, sleepers, who) == {} then flags else CLEAR
  }
}
