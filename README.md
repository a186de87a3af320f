# Biblioteca: a per-owner book library on Solana, modelled in Dafny

The Anchor program `biblioteca` keeps one library account per owner. The
account holds the owner's public key, a library name and an ordered list of
books; a book has a name, a page count (`u16`) and an availability flag.
Five instructions act on it:

- `crear_biblioteca` creates the account: the signer becomes the owner and the
  book list starts empty.
- `agregar_libro`, `eliminar_libro`, `ver_libros` and `alternar_estado` first
  check that the signer is the stored owner and otherwise fail with
  `NoEresElOwner`.
- `agregar_libro` appends a book marked available.
- `eliminar_libro` scans the list and deletes the first book with the given
  name; `alternar_estado` scans it and inverts the flag of the first book with
  the given name. Both fail with `LibroNoExiste` when no book has that name.
- `ver_libros` only logs the list.

The model has three modules:

- `Types` (types.dfy): `Pubkey` (32 bytes), `U16`, the `Libro` record, the
  `Errores` enum and the instruction result `Outcome`.
- `Books` (books.dfy): reference definitions, by recursion on the list, of
  "the first index named n" (`FirstMatch`), "delete the first book named n"
  (`RemoveFirst`) and "invert the first book named n" (`ToggleFirst`), with
  lemmas: deletion removes exactly the entry at the first matching index and
  keeps the others in order, toggling changes only that entry's flag, toggling
  keeps every name, and toggling twice restores the list.
- `Biblioteca` (biblioteca.dfy): the owner gate `CheckOwner` and the class
  `Biblioteca` with the account's fields `owner`, `nombre` and `libros`. The
  instructions are its constructor and methods. The two scans are `while`
  loops over the index, as in the source, proved equal to the reference
  definitions. Every method may modify `libros` only, so no instruction after
  creation can change `owner` or `nombre`. `VerLibros` has no `modifies`
  clause, so it changes nothing. Every method leaves `libros` unchanged when
  it fails.

Module `Escenario` is a client that checks, from the contracts alone, a short
run: adding "Dune" with 412 pages, a rejected call by a non-owner, toggling
twice, deleting a missing name, and deleting "Dune".

Three checks one might expect are not in the code; the model follows the code:

- The code has no `CapacityExceeded` error. `agregar_libro` pushes with no
  length check.
- The code has no name-length error. The 60-character and 10-book bounds
  (`#[max_len]`) only size the account.
- `ver_libros` does not return the list. It writes it to the program log. The
  model gives the logged list as the out-parameter `mostrado`.

## Model

| member | source | states |
|---|---|---|
| Biblioteca.CheckOwner | src/lib.rs:24-27 | the gate passes exactly when the signer equals the stored owner, and otherwise yields `NoEresElOwner` |
| Biblioteca.Biblioteca.CrearBiblioteca | src/lib.rs:9-21 | the new account's owner is the signer, its name is the argument, and its book list is empty |
| Biblioteca.Biblioteca.AgregarLibro | src/lib.rs:23-38 | a non-owner gets `NoEresElOwner` and the list is unchanged; the owner gets `Ok`, and the list is the old list with `{nombre, paginas, disponible: true}` added at the end; owner and name never change |
| Biblioteca.Biblioteca.EliminarLibro | src/lib.rs:40-55 | a non-owner gets `NoEresElOwner`; the owner gets `LibroNoExiste` exactly when no book has the name, and then the list is unchanged; otherwise `Ok`, and the list is `RemoveFirst` of the old list; owner and name never change |
| Biblioteca.Biblioteca.VerLibros | src/lib.rs:57-65 | it succeeds exactly when the signer is the owner; the logged list is then the stored list; a non-owner gets `NoEresElOwner`; nothing changes |
| Biblioteca.Biblioteca.AlternarEstado | src/lib.rs:67-86 | a non-owner gets `NoEresElOwner`; the owner gets `LibroNoExiste` exactly when no book has the name, and then the list is unchanged; otherwise `Ok`, and the list is `ToggleFirst` of the old list; owner and name never change |
| Books.FirstMatch | src/lib.rs:47-48 | the result is an index holding the name with no earlier index holding it, and there is no result exactly when no book has the name |
| Books.RemoveFirstAt | src/lib.rs:47-54 | `RemoveFirst(s, n)`, deleting the first book named n, gives the list with only the entry at the first matching index taken out, the others in their order, one shorter; with no match the list is unchanged |
| Books.ToggleFirstAt | src/lib.rs:74-85 | `ToggleFirst(s, n)`, inverting the flag of the first book named n, gives the list with only the entry at the first matching index replaced by the same book with its flag inverted; with no match the list is unchanged |
| Books.ToggleFirstKeepsNames | src/lib.rs:74-82 | toggling keeps the length and every book's name, so the first match of the name stays at the same index |
| Books.ToggleFirstInvolution | src/lib.rs:77-79 | toggling the same name twice gives back the original list |

## Left out

- Address derivation of the account (`seeds = [b"biblioteca", owner]`, `bump`,
  src/lib.rs:129-130): a hashing primitive of the host. The model has one
  account object per library and does not model the map from owner to address.
- Creating an account that already exists (Anchor's `init`, src/lib.rs:126):
  the host rejects it; the program code does not branch on it.
- Account space, rent and serialization (`INIT_SPACE + 8`, `#[max_len(60)]`,
  `#[max_len(10)]`, src/lib.rs:103-128): these size the stored bytes. An
  append that no longer fits, or a creation (`set_inner`, src/lib.rs:15) whose
  name is longer than the space left in the allocated account, would fail when
  the host writes the account back. That is host behaviour and is not
  modelled: `CrearBiblioteca` always succeeds and the model's list is
  unbounded.
- Signer authentication (`Signer<'info>`): the signer's key is a parameter.
- Program log (`msg!`) other than the list `ver_libros` logs, and `declare_id!`:
  output only.
- src/x.rs: an unfinished draft that does not compile; it is not part of this
  model.
