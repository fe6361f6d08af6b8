/** The notification stack of `useToast`: toasts are pushed at the end and
    removed by id. The id (a millisecond clock reading in the source) is an
    input here, and the timer that removes a toast later is a separate call
    of `RemoveToast`. */
module Toast {
  import opened Wrappers

  const DefaultKind: string := "success"

  datatype Toast = Toast(id: int, title: string, message: string, kind: string)

  /** `filter(n => n.id !== id)`: the entries whose id differs, in order. */
  function Without(s: seq<Toast>, id: int): (r: seq<Toast>)
    ensures |r| <= |s|
    ensures forall t :: t in r <==> t in s && t.id != id
  {
    if s == [] then [] else (if s[0].id == id then [] else [s[0]]) + Without(s[1..], id)
  }

  /** Filtering a concatenation filters each part: the surviving entries
      keep their relative order. */
  lemma {:induction false} WithoutAppend(a: seq<Toast>, b: seq<Toast>, id: int)
    ensures Without(a + b, id) == Without(a, id) + Without(b, id)
    decreases |a|
  {
    if a == [] {
      assert a + b == b;
    } else {
      assert (a + b)[1..] == a[1..] + b;
      WithoutAppend(a[1..], b, id);
    }
  }

  /** Removing an id no entry carries leaves the list as it was. */
  lemma {:induction false} WithoutAbsent(s: seq<Toast>, id: int)
    requires forall t :: t in s ==> t.id != id
    ensures Without(s, id) == s
    decreases |s|
  {
    if s != [] {
      assert forall t :: t in s[1..] ==> t in s;
      WithoutAbsent(s[1..], id);
    }
  }

  /** Removing the same id twice is removing it once. */
  lemma WithoutIdempotent(s: seq<Toast>, id: int)
    ensures Without(Without(s, id), id) == Without(s, id)
  {
    WithoutAbsent(Without(s, id), id);
  }

  /** Timers may fire in either order: the result is the same. */
  lemma {:induction false} WithoutCommutes(s: seq<Toast>, i: int, j: int)
    ensures Without(Without(s, i), j) == Without(Without(s, j), i)
    decreases |s|
  {
    if s != [] {
      var head := [s[0]];
      WithoutCommutes(s[1..], i, j);
      assert s == head + s[1..];
      WithoutAppend(Without(head, i), Without(s[1..], i), j);
      WithoutAppend(Without(head, j), Without(s[1..], j), i);
    }
  }

  /** A toast shown with an id no earlier toast has is removed by its timer
      without touching the others. */
  lemma ShowThenRemove(s: seq<Toast>, t: Toast)
    requires forall u :: u in s ==> u.id != t.id
    ensures Without(s + [t], t.id) == s
  {
    WithoutAppend(s, [t], t.id);
    WithoutAbsent(s, t.id);
  }

  /** The module-level `notifications` list. */
  class ToastStack {
    var notifications: seq<Toast>

    constructor ()
      ensures notifications == []
    {
      notifications := [];
    }

    /** `showToast`: one entry is appended with the given fields; `kind`
        is `'success'` when the caller leaves it out. */
    method ShowToast(id: int, title: string, message: string, kind: Option<string>)
      modifies this
      ensures |notifications| == |old(notifications)| + 1
      ensures notifications[..|old(notifications)|] == old(notifications)
      ensures notifications[|old(notifications)|] ==
        Toast(id, title, message, if kind.Some? then kind.value else DefaultKind)
    {
      var k := if kind.Some? then kind.value else DefaultKind;
      notifications := notifications + [Toast(id, title, message, k)];
    }

    /** `removeToast`: every entry with this id goes, the rest stay in order. */
    method RemoveToast(id: int)
      modifies this
      ensures notifications == Without(old(notifications), id)
      ensures forall t :: t in notifications ==> t.id != id
      ensures |notifications| <= |old(notifications)|
    {
      notifications := Without(notifications, id);
    }
  }
}
