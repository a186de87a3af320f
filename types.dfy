// Values stored in a library account: keys, page counts, books, and the
// program's error codes (src/lib.rs:90-118).
module Types {

  /** A 32-byte public key identifying a signer (Anchor's `Pubkey`). */
  type Pubkey = k: seq<bv8> | |k| == 32 witness seq(32, i => 0 as bv8)

  /** Rust's `u16`: page counts are never negative and never exceed 65535. */
  newtype U16 = x: int | 0 <= x < 0x1_0000

  /** A book entry. Names need not be unique. */
  datatype Libro = Libro(nombre: string, paginas: U16, disponible: bool)

  /** The program's error enum `Errores`. */
  datatype Errores = NoEresElOwner | LibroNoExiste

  /** The instruction result `Result<()>`: success, or one of the program's errors. */
  datatype Outcome = Ok | Err(error: Errores)
}
