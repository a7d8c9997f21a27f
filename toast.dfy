/** components/ToastProvider.tsx: the list of visible notifications and the map from a
    notification's id to the timer that will dismiss it. */
module Toast {
  import opened Wrappers
  import opened Seqs

  datatype ToastKind = Success | Error | Info

  datatype Toast = Toast(id: int, message: string, kind: ToastKind)

  function WithoutId(id: int): Toast -> bool {
    (t: Toast) => t.id != id
  }

  /** `prev.filter((toast) => toast.id !== id)`: the toasts with another id, in order. */
  lemma RemoveByIdSpec(toasts: seq<Toast>, id: int)
    ensures var r := Filter(toasts, WithoutId(id));
      && IsSubsequence(r, toasts)
      && (forall t :: t in r <==> t in toasts && t.id != id)
  {
    FilterIsSubsequence(toasts, WithoutId(id));
  }

  /** Removing an id no toast carries leaves the list as it was. */
  lemma RemoveUnknownIdKeepsList(toasts: seq<Toast>, id: int)
    requires forall i :: 0 <= i < |toasts| ==> toasts[i].id != id
    ensures Filter(toasts, WithoutId(id)) == toasts
  {
    FilterKeepsAll(toasts, WithoutId(id));
  }

  /** Adding a toast under a fresh id and then removing that id restores the list. */
  lemma {:induction false} AddThenRemove(toasts: seq<Toast>, t: Toast)
    requires forall i :: 0 <= i < |toasts| ==> toasts[i].id != t.id
    ensures Filter(toasts + [t], WithoutId(t.id)) == toasts
  {
    FilterAppend(toasts, [t], WithoutId(t.id));
    RemoveUnknownIdKeepsList(toasts, t.id);
    assert Filter([t], WithoutId(t.id)) == [];
  }

  class ToastProvider {
    var toasts: seq<Toast>
    /** `timeoutRefs`: toast id to `setTimeout` handle. */
    var timers: map<int, nat>

    /** Browsers hand out positive timer handles, so every stored handle is truthy. */
    predicate Valid()
      reads this
    {
      forall id :: id in timers ==> timers[id] > 0
    }

    constructor()
      ensures toasts == [] && timers == map[] && Valid()
    {
      toasts := [];
      timers := map[];
    }

    /** `addToast`: an empty message does nothing; otherwise one toast is appended, its kind
        defaulting to info, and its timer is recorded under its id. The id (from the clock and
        `Math.random`) and the timer handle are inputs. */
    method AddToast(message: string, kind: Option<ToastKind>, id: int, timer: nat)
      requires Valid() && timer > 0
      modifies this
      ensures Valid()
      ensures message == "" ==> toasts == old(toasts) && timers == old(timers)
      ensures message != "" ==> toasts == old(toasts) + [Toast(id, message, kind.GetOr(Info))]
      ensures message != "" ==> timers == old(timers)[id := timer]
    {
      if message == "" {
        return;
      }
      toasts := toasts + [Toast(id, message, kind.GetOr(Info))];
      timers := timers[id := timer];
    }

    /** `removeToast`: clear and forget the timer if there is one, then drop the toasts with
        this id. */
    method RemoveToast(id: int)
      requires Valid()
      modifies this
      ensures Valid()
      ensures toasts == Filter(old(toasts), WithoutId(id))
      ensures timers == old(timers) - {id}
      ensures id !in timers
    {
      if id in timers && timers[id] != 0 {
        timers := timers - {id};
      }
      toasts := Filter(toasts, WithoutId(id));
    }
  }

  /** A toast added under a fresh id is gone, with its timer, once its id is removed; the
      other toasts are as before. */
  method AddThenDismiss(p: ToastProvider, message: string, id: int, timer: nat)
    requires p.Valid() && timer > 0
    requires forall i :: 0 <= i < |p.toasts| ==> p.toasts[i].id != id
    requires id !in p.timers
    modifies p
    ensures p.toasts == old(p.toasts) && p.timers == old(p.timers)
  {
    p.AddToast(message, None, id, timer);
    p.RemoveToast(id);
    if message != "" {
      AddThenRemove(old(p.toasts), Toast(id, message, Info));
    } else {
      RemoveUnknownIdKeepsList(old(p.toasts), id);
    }
  }
}
