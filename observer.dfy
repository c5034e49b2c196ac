/**
 * User activity notifications with the Observer pattern (behavioral/observer.ts).
 *
 * The subject keeps its observers in a list: `subscribe` appends (duplicates
 * allowed), `unsubscribe` filters out every entry identical to the given
 * observer, and `notify` calls `update` on each entry in list order. The
 * observers' console lines are recorded as a list of `Call`s, one per
 * `update`, saying whether the observer acted on the event.
 */
module Observer {

  datatype ObserverKind = AuditLogger | NotificationService | SessionTracker

  const LoginEvent: string := "login"

  class Observer {
    const kind: ObserverKind

    constructor (kind: ObserverKind)
      ensures this.kind == kind
    {
      this.kind := kind;
    }

    /** `update`: every kind of observer acts on a 'login' event and ignores all others. */
    method Update(event: string, data: string) returns (acted: bool)
      ensures acted <==> event == "login"
    {
      acted := event == LoginEvent;
    }
  }

  /** One `update` call made by `notify`: the observer, its arguments, and whether it acted. */
  datatype Call = Call(observer: Observer, event: string, data: string, acted: bool)

  /**
   * `observers.filter(obj => obj !== observer)`: never longer than the list,
   * free of `o`, and holding only entries of the list.
   */
  function RemoveAll(s: seq<Observer>, o: Observer): (r: seq<Observer>)
    ensures |r| <= |s|
    ensures o !in r
    ensures forall x :: x in r ==> x in s
    decreases |s|
  {
    if s == [] then []
    else (if s[0] == o then [] else [s[0]]) + RemoveAll(s[1..], o)
  }

  /** After removal, the list holds exactly the other observers it held before. */
  lemma {:induction false} RemoveAllMembers(s: seq<Observer>, o: Observer, x: Observer)
    ensures x in RemoveAll(s, o) <==> x in s && x != o
    decreases |s|
  {
    if s != [] {
      RemoveAllMembers(s[1..], o, x);
      assert s == [s[0]] + s[1..];
    }
  }

  /** Every occurrence of the removed observer goes; the others keep their number of occurrences. */
  lemma {:induction false} RemoveAllCounts(s: seq<Observer>, o: Observer)
    ensures multiset(RemoveAll(s, o))[o] == 0
    ensures forall x :: x != o ==> multiset(RemoveAll(s, o))[x] == multiset(s)[x]
    decreases |s|
  {
    if s != [] {
      RemoveAllCounts(s[1..], o);
      assert s == [s[0]] + s[1..];
    }
  }

  /** Removal works piecewise, so the remaining observers keep their relative order. */
  lemma {:induction false} RemoveAllAppend(a: seq<Observer>, b: seq<Observer>, o: Observer)
    ensures RemoveAll(a + b, o) == RemoveAll(a, o) + RemoveAll(b, o)
    decreases |a|
  {
    if a == [] {
      assert a + b == b;
    } else {
      assert (a + b)[1..] == a[1..] + b;
      RemoveAllAppend(a[1..], b, o);
    }
  }

  /** Unsubscribing an observer that is not in the list leaves the list unchanged. */
  lemma {:induction false} RemoveAllAbsent(s: seq<Observer>, o: Observer)
    requires o !in s
    ensures RemoveAll(s, o) == s
    decreases |s|
  {
    if s != [] {
      RemoveAllAbsent(s[1..], o);
    }
  }

  class UserActivityService {
    var observers: seq<Observer>

    constructor ()
      ensures observers == []
    {
      observers := [];
    }

    /** `subscribe`: append at the end, even if already subscribed. */
    method Subscribe(observer: Observer)
      modifies this
      ensures observers == old(observers) + [observer]
    {
      observers := observers + [observer];
    }

    /** `unsubscribe`: drop every entry that is this very observer. */
    method Unsubscribe(observer: Observer)
      modifies this
      ensures observers == RemoveAll(old(observers), observer)
      ensures observer !in observers
      ensures forall x :: x in observers <==> x in old(observers) && x != observer
    {
      forall x {
        RemoveAllMembers(observers, observer, x);
      }
      observers := RemoveAll(observers, observer);
    }

    /** `notify`: one `update(event, data)` per list entry, in subscription order. */
    method Notify(event: string, data: string) returns (calls: seq<Call>)
      ensures |calls| == |observers|
      ensures forall i :: 0 <= i < |calls| ==> calls[i] == Call(observers[i], event, data, event == "login")
    {
      calls := [];
      for i := 0 to |observers|
        invariant |calls| == i
        invariant forall j :: 0 <= j < i ==> calls[j] == Call(observers[j], event, data, event == "login")
      {
        var acted := observers[i].Update(event, data);
        calls := calls + [Call(observers[i], event, data, acted)];
      }
    }

    /** `userLoggedIn`: notify every observer of a 'login' by `user`; each one acts on it. */
    method UserLoggedIn(user: string) returns (calls: seq<Call>)
      ensures |calls| == |observers|
      ensures forall i :: 0 <= i < |calls| ==> calls[i] == Call(observers[i], "login", user, true)
    {
      calls := Notify(LoginEvent, user);
    }
  }

  /**
   * The script at the end of the source file: three observers, one login,
   * three updates in subscription order. The script itself never
   * unsubscribes; the second `Subscribe(audit)` and the `Unsubscribe` after
   * the login are added here to show that unsubscribing removes every
   * occurrence of an observer and keeps the others in order.
   */
  method Demo() returns (calls: seq<Call>, remaining: seq<ObserverKind>)
    ensures |calls| == 3
    ensures calls[0].observer.kind == AuditLogger && calls[1].observer.kind == SessionTracker
    ensures calls[2].observer.kind == NotificationService
    ensures forall i :: 0 <= i < 3 ==> calls[i].event == "login" && calls[i].data == "d-123" && calls[i].acted
    ensures remaining == [SessionTracker, NotificationService]
  {
    var service := new UserActivityService();
    var audit := new Observer(AuditLogger);
    var tracker := new Observer(SessionTracker);
    var notifier := new Observer(NotificationService);
    service.Subscribe(audit);
    service.Subscribe(tracker);
    service.Subscribe(notifier);
    calls := service.UserLoggedIn("d-123");
    service.Subscribe(audit);
    ghost var before := service.observers;
    assert before == [audit, tracker, notifier, audit];
    service.Unsubscribe(audit);
    assert service.observers == [tracker, notifier] by {
      assert before[1..] == [tracker, notifier, audit];
      assert before[1..][1..] == [notifier, audit];
      assert before[1..][1..][1..] == [audit];
      assert before[1..][1..][1..][1..] == [];
      assert RemoveAll(before[1..][1..][1..], audit) == [];
      assert RemoveAll(before[1..][1..], audit) == [notifier];
      assert RemoveAll(before[1..], audit) == [tracker, notifier];
    }
    remaining := [service.observers[0].kind, service.observers[1].kind];
  }
}
