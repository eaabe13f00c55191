/** Byte strings and the two sum types shared by every module. */
module Common {
  /** The size of a Secret Key: 160 bits, exactly 32 symbols. */
  const SECRET_KEY_LEN: nat := 20


  type Byte = b: nat | b < 256
  type Bytes = seq<Byte>

  /** The bytes of an ASCII text. */
  function Ascii(text: string): Bytes
  {
    seq(|text|, i requires 0 <= i < |text| => Code(text[i]))
  }

  function Code(c: char): Byte { if c as int < 128 then c as int else 0 }

  datatype Option<+T> = None | Some(value: T)

  datatype Result<+T, +E> = Ok(value: T) | Err(error: E) {
    predicate IsFailure() { Err? }

    function PropagateFailure<U>(): Result<U, E>
      requires Err?
    {
      Err(error)
    }

    function ToOption(): Option<T> { if Ok? then Some(value) else None }

    function Extract(): T
      requires Ok?
    {
      value
    }
  }
}
