// Value types shared by the whole fake Bluetooth object graph.

/** Rust's fixed-width integers, as the ranges the fields may hold. */
type uint8 = x: int | 0 <= x < 0x100
type uint16 = x: int | 0 <= x < 0x1_0000
type uint32 = x: int | 0 <= x < 0x1_0000_0000
type int16 = x: int | -0x8000 <= x < 0x8000

/** A Rust `String` seen as its UTF-8 bytes; used where the source indexes a string by byte offset. */
type Utf8 = seq<uint8>

datatype Option<T> = None | Some(value: T)

/** A Rust `Result<T, Box<Error>>` whose error is a message. */
datatype Result<T> = Ok(value: T) | Err(msg: string)

/** A Rust `Result<(), Box<Error>>`. */
datatype Outcome = Pass | Fail(msg: string)
