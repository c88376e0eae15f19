/** Identity of the simulated users: a counter shared by every user of the
    class, incremented as each user is created, whose new value becomes that
    user's id. */
module Users {

  /** The class-level state shared by all users: how many have been created. */
  class UserCounter {
    var count: nat

    /** The class is defined with its counter at zero. */
    constructor ()
      ensures count == 0
    {
      count := 0;
    }
  }

  /** A simulated user; its id never changes after creation. */
  class VirtualUser {
    const userId: nat

    /** Increments the shared counter and takes the new value as the id. */
    constructor (counter: UserCounter)
      modifies counter
      ensures counter.count == old(counter.count) + 1
      ensures userId == counter.count
    {
      counter.count := counter.count + 1;
      userId := counter.count;
    }
  }

  /** Two users created one after the other get consecutive ids above every
      id handed out before, so they never share one. */
  method CreateTwo(counter: UserCounter) returns (first: VirtualUser, second: VirtualUser)
    modifies counter
    ensures counter.count == old(counter.count) + 2
    ensures old(counter.count) < first.userId < second.userId == counter.count
    ensures fresh(first) && fresh(second)
  {
    first := new VirtualUser(counter);
    second := new VirtualUser(counter);
  }
}
