/** kis/ws/execution.go: execution notices. */
module Execution {
  import opened Prelude
  import opened Text
  import opened Frame

  datatype Side = Unknown | Sell | Buy

  datatype Notice = Notice(orderNo: Bytes, symbol: Bytes, side: Side, qty: Bytes, price: Bytes,
                           filledAt: Bytes, filled: Bytes)

  const FIELD_COUNT: nat := 14

  const TR_EXECUTION_LIVE: Bytes := [72, 48, 83, 84, 67, 78, 73, 48] // "H0STCNI0"
  const TR_EXECUTION_VTS: Bytes := [72, 48, 83, 84, 67, 78, 73, 57]  // "H0STCNI9"

  predicate IsExecution(tr: Bytes) {
    tr == TR_EXECUTION_LIVE || tr == TR_EXECUTION_VTS
  }

  /** "01", "1", "S" sell; "02", "2", "B" buy; anything else is unknown. */
  function ParseSide(code: Bytes): Side {
    var c := Trim(code);
    if c == [48, 49] || c == [49] || c == [83] then Sell
    else if c == [48, 50] || c == [50] || c == [66] then Buy
    else Unknown
  }

  /** A record of any other length is an error that carries its length. */
  function ParseExecution(fields: seq<Bytes>): Result<Notice, nat> {
    if |fields| != FIELD_COUNT then Err(|fields|)
    else Ok(Notice(Field(fields, 2), Field(fields, 8), ParseSide(Field(fields, 4)), Field(fields, 9),
                   Field(fields, 10), Field(fields, 11), Field(fields, 13)))
  }
}
