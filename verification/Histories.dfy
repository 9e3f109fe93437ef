// Reading a history of notes, oldest first.
module Histories {
  // The first note that satisfies `p`, or the length of the history.
  function First<T>(notes: seq<T>, p: T -> bool): (i: nat)
    ensures i <= |notes|
    ensures i < |notes| ==> p(notes[i])
    ensures forall k :: 0 <= k < i ==> !p(notes[k])
  {
    if notes == [] then 0
    else
      var init := notes[..|notes| - 1];
      var i := First(init, p);
      if i < |init| then i else if p(notes[|notes| - 1]) then |init| else |notes|
  }

  lemma FirstAppended<T>(notes: seq<T>, note: T, p: T -> bool)
    ensures First(notes + [note], p) ==
      if First(notes, p) < |notes| then First(notes, p) else if p(note) then |notes| else |notes| + 1
  {
    var all := notes + [note];
    assert all[..|all| - 1] == notes && all[|notes|] == note;
  }

  lemma InAppended<T>(notes: seq<T>, note: T, n: T)
    ensures n in notes + [note] <==> n in notes || n == note
  {
  }
}
