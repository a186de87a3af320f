// The Anchor program `biblioteca` (src/lib.rs:5-88): one library account per
// owner, created by its owner and then read or changed only by that owner.
module Biblioteca {
  import opened Types
  import opened Books

  /** The owner gate every instruction but creation runs first: it passes
      exactly when the signer is the stored owner. */
  function CheckOwner(owner: Pubkey, signer: Pubkey): (r: Outcome)
    ensures r == Ok <==> owner == signer
    ensures r != Ok ==> r == Err(NoEresElOwner)
  {
    if owner == signer then Ok else Err(NoEresElOwner)
  }

  /** The library account. `owner` and `nombre` are set once, at creation;
      the instructions below change `libros` only. */
  class Biblioteca {
    var owner: Pubkey
    var nombre: string
    var libros: seq<Libro>

    /** `crear_biblioteca`: the signer becomes the owner, the list starts empty. */
    constructor CrearBiblioteca(signer: Pubkey, nombre: string)
      ensures owner == signer && this.nombre == nombre && libros == []
    {
      owner := signer;
      this.nombre := nombre;
      libros := [];
    }

    /** `agregar_libro`: the owner appends an available book at the end. */
    method AgregarLibro(signer: Pubkey, nombre: string, paginas: U16) returns (r: Outcome)
      modifies this`libros
      ensures r == CheckOwner(owner, signer)
      ensures r == Ok ==> libros == old(libros) + [Libro(nombre, paginas, true)]
      ensures r != Ok ==> libros == old(libros)
    {
      r := CheckOwner(owner, signer);
      if r != Ok {
        return;
      }
      libros := libros + [Libro(nombre, paginas, true)];
    }

    /** `eliminar_libro`: the owner deletes the first book named `nombre`;
        with no such book the call fails and the list is unchanged. */
    method EliminarLibro(signer: Pubkey, nombre: string) returns (r: Outcome)
      modifies this`libros
      ensures r == (if owner != signer then Err(NoEresElOwner)
                    else if FirstMatch(old(libros), nombre).None? then Err(LibroNoExiste)
                    else Ok)
      ensures r == Ok ==> libros == RemoveFirst(old(libros), nombre)
      ensures r != Ok ==> libros == old(libros)
    {
      r := CheckOwner(owner, signer);
      if r != Ok {
        return;
      }
      var i := 0;
      while i < |libros|
        invariant 0 <= i <= |libros|
        invariant libros == old(libros)
        invariant forall j :: 0 <= j < i ==> libros[j].nombre != nombre
      {
        if libros[i].nombre == nombre {
          RemoveFirstAt(libros, nombre);
          libros := libros[..i] + libros[i + 1..];
          return Ok;
        }
        i := i + 1;
      }
      return Err(LibroNoExiste);
    }

    /** `ver_libros`: after the owner gate, logs the list; `mostrado` is what
        is logged. Nothing changes. */
    method VerLibros(signer: Pubkey) returns (r: Outcome, mostrado: seq<Libro>)
      ensures r == Ok <==> owner == signer
      ensures r != Ok ==> r == Err(NoEresElOwner) && mostrado == []
      ensures r == Ok ==> mostrado == libros
    {
      r := CheckOwner(owner, signer);
      mostrado := if r == Ok then libros else [];
    }

    /** `alternar_estado`: the owner inverts the availability of the first
        book named `nombre`; with no such book the call fails and the list is
        unchanged. */
    method AlternarEstado(signer: Pubkey, nombre: string) returns (r: Outcome)
      modifies this`libros
      ensures r == (if owner != signer then Err(NoEresElOwner)
                    else if FirstMatch(old(libros), nombre).None? then Err(LibroNoExiste)
                    else Ok)
      ensures r == Ok ==> libros == ToggleFirst(old(libros), nombre)
      ensures r != Ok ==> libros == old(libros)
    {
      r := CheckOwner(owner, signer);
      if r != Ok {
        return;
      }
      var i := 0;
      while i < |libros|
        invariant 0 <= i <= |libros|
        invariant libros == old(libros)
        invariant forall j :: 0 <= j < i ==> libros[j].nombre != nombre
      {
        var estado := libros[i].disponible;
        if libros[i].nombre == nombre {
          ToggleFirstAt(libros, nombre);
          libros := libros[i := libros[i].(disponible := !estado)];
          return Ok;
        }
        i := i + 1;
      }
      return Err(LibroNoExiste);
    }
  }
}

// A client of the program: what callers can conclude from the contracts
// above alone, for a library created by `a` and touched by `a` and `b`.
module Escenario {
  import opened Types
  import opened Books
  import opened Biblioteca

  method Escenario(a: Pubkey, b: Pubkey, dune: string, otro: string)
    requires a != b && dune != otro
  {
    var lib := new Biblioteca.CrearBiblioteca(a, "mia");
    var r := lib.AgregarLibro(a, dune, 412);
    assert r == Ok && lib.libros == [Libro(dune, 412, true)];
    r := lib.AgregarLibro(b, otro, 10);
    assert r == Err(NoEresElOwner) && lib.libros == [Libro(dune, 412, true)];
    r := lib.AlternarEstado(a, dune);
    assert lib.libros == [Libro(dune, 412, false)];
    r := lib.AlternarEstado(a, dune);
    assert lib.libros == [Libro(dune, 412, true)];
    r := lib.EliminarLibro(a, otro);
    assert r == Err(LibroNoExiste) && lib.libros == [Libro(dune, 412, true)];
    var listado;
    r, listado := lib.VerLibros(b);
    assert r == Err(NoEresElOwner) && listado == [];
    r := lib.EliminarLibro(a, dune);
    assert r == Ok && lib.libros == [] && lib.owner == a;
  }
}
