// Reference definitions of the two scan-and-mutate operations on the book
// list, written by recursion on the list, and the properties they have.
// The class methods in module Biblioteca run index loops and are proved
// equal to these definitions.
module Books {
  import opened Types

  /** A position in the book list, or none. */
  datatype Option = None | Some(index: nat)

  /** The smallest index whose book is named `n`, if any. */
  function FirstMatch(s: seq<Libro>, n: string): (r: Option)
    ensures r.Some? ==> r.index < |s| && s[r.index].nombre == n
    ensures r.Some? ==> forall j :: 0 <= j < r.index ==> s[j].nombre != n
    ensures r.None? <==> forall j :: 0 <= j < |s| ==> s[j].nombre != n
  {
    if s == [] then None
    else if s[0].nombre == n then Some(0)
    else match FirstMatch(s[1..], n)
      case None => None
      case Some(k) => Some(k + 1)
  }

  /** The list with its first book named `n` deleted (unchanged if none is). */
  function RemoveFirst(s: seq<Libro>, n: string): seq<Libro>
  {
    if s == [] then []
    else if s[0].nombre == n then s[1..]
    else [s[0]] + RemoveFirst(s[1..], n)
  }

  /** The same book with its availability flag inverted. */
  function Flip(b: Libro): (r: Libro)
    ensures r.nombre == b.nombre && r.paginas == b.paginas
    ensures r.disponible != b.disponible
  {
    b.(disponible := !b.disponible)
  }

  /** The list with the flag of its first book named `n` inverted (unchanged if none is). */
  function ToggleFirst(s: seq<Libro>, n: string): seq<Libro>
  {
    if s == [] then []
    else if s[0].nombre == n then [Flip(s[0])] + s[1..]
    else [s[0]] + ToggleFirst(s[1..], n)
  }

  /** Removing deletes exactly the entry at the first matching index, keeping
      the order of all the others; with no match the list is unchanged. */
  lemma {:induction false} RemoveFirstAt(s: seq<Libro>, n: string)
    ensures FirstMatch(s, n).Some? ==>
      var i := FirstMatch(s, n).index;
      RemoveFirst(s, n) == s[..i] + s[i + 1..] && |RemoveFirst(s, n)| == |s| - 1
    ensures FirstMatch(s, n).None? ==> RemoveFirst(s, n) == s
  {
    if s != [] && s[0].nombre != n {
      RemoveFirstAt(s[1..], n);
      if FirstMatch(s[1..], n).Some? {
        var k := FirstMatch(s[1..], n).index;
        assert s[1..][..k] + s[1..][k + 1..] == s[1..k + 1] + s[k + 2..];
        assert [s[0]] + s[1..k + 1] == s[..k + 1];
      }
    }
  }

  /** Toggling inverts the flag of the first matching entry only: that entry
      keeps its name and page count, every other entry is unchanged. */
  lemma {:induction false} ToggleFirstAt(s: seq<Libro>, n: string)
    ensures FirstMatch(s, n).Some? ==>
      var i := FirstMatch(s, n).index;
      ToggleFirst(s, n) == s[i := Flip(s[i])]
    ensures FirstMatch(s, n).None? ==> ToggleFirst(s, n) == s
  {
    if s != [] && s[0].nombre != n {
      ToggleFirstAt(s[1..], n);
      if FirstMatch(s[1..], n).Some? {
        var k := FirstMatch(s[1..], n).index;
        assert [s[0]] + s[1..][k := Flip(s[1..][k])] == s[k + 1 := Flip(s[k + 1])];
      }
    }
  }

  /** Toggling never changes any name, so the first match stays where it was. */
  lemma {:induction false} ToggleFirstKeepsNames(s: seq<Libro>, n: string)
    ensures |ToggleFirst(s, n)| == |s|
    ensures forall j :: 0 <= j < |s| ==> ToggleFirst(s, n)[j].nombre == s[j].nombre
    ensures FirstMatch(ToggleFirst(s, n), n) == FirstMatch(s, n)
  {
    if s != [] && s[0].nombre != n {
      ToggleFirstKeepsNames(s[1..], n);
    }
  }

  /** Toggling the same name twice gives back the original list. */
  lemma {:induction false} ToggleFirstInvolution(s: seq<Libro>, n: string)
    ensures ToggleFirst(ToggleFirst(s, n), n) == s
  {
    if s != [] {
      if s[0].nombre == n {
        assert ToggleFirst(s, n)[1..] == s[1..];
      } else {
        ToggleFirstInvolution(s[1..], n);
        assert ToggleFirst(s, n)[1..] == ToggleFirst(s[1..], n);
      }
    }
  }
}
