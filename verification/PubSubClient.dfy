/** `PubSubClient`'s registrations. Each method is the code before its send. */
module PubSubClient {
  import opened Subjects
  import CA = ClientAgreement

  class Client {
    var subscribeCallbacks: map<Subject, seq<CA.Callback>>

    /** A subject without callbacks is dropped. */
    ghost predicate Valid()
      reads this
    {
      forall s :: s in subscribeCallbacks ==> subscribeCallbacks[s] != []
    }

    constructor ()
      ensures Valid() && subscribeCallbacks == map[]
    {
      subscribeCallbacks := map[];
    }

    /** Whether this is the first callback of its subject, which the node must be told about. */
    method AddRegistration(s: Subject, callback: CA.Callback) returns (isFirst: bool)
      requires Valid()
      modifies this
      ensures Valid() && subscribeCallbacks == CA.Register(old(subscribeCallbacks), s, callback)
      ensures isFirst <==> s !in old(subscribeCallbacks)
    {
      var callbacks := if s in subscribeCallbacks then subscribeCallbacks[s] else [];
      isFirst := callbacks == [];
      subscribeCallbacks := subscribeCallbacks[s := callbacks + [callback]];
    }

    /** Remove one registration of `callback`, if there is one. True if it was the subject's last. */
    method RemoveRegistration(s: Subject, callback: CA.Callback) returns (last: bool)
      requires Valid()
      modifies this
      ensures Valid() && subscribeCallbacks == CA.Remove(old(subscribeCallbacks), s, callback)
      ensures last <==> CA.DropsSubject(old(subscribeCallbacks), s, callback)
    {
      if s !in subscribeCallbacks {
        return false;
      }
      var callbacks := subscribeCallbacks[s];
      var index := 0;
      while index < |callbacks| && callbacks[index] != callback
        invariant index <= |callbacks| && callback !in callbacks[..index]
      {
        index := index + 1;
      }
      if index == |callbacks| {
        assert callbacks[..index] == callbacks;
        return false;
      }
      CA.RemovedAt(callbacks, callback, index);
      callbacks := callbacks[..index] + callbacks[index + 1..];
      if callbacks != [] {
        subscribeCallbacks := subscribeCallbacks[s := callbacks];
        return false;
      }
      subscribeCallbacks := subscribeCallbacks - {s};
      last := true;
    }
  }
}
