/** The values the SNMP layer hands to the collector.  Only the shape of a
    variable binding is modelled: its dotted OID name and its dynamically
    typed value.  Sessions, requests and the wire encoding are outside the
    model; their results reach the collector as plain values. */
module Snmp {

  /** Go's `uint` and `int` on a 64-bit platform. */
  type UInt = x: int | 0 <= x < 0x1_0000_0000_0000_0000
  type Int = x: int | -0x8000_0000_0000_0000 <= x < 0x8000_0000_0000_0000

  /** The dynamic type of a variable binding's value as the collector sees it:
      nil, a Go `uint`, a Go `int`, or anything else (an octet string, an OID, ...). */
  datatype Value = Nil | UIntValue(u: UInt) | IntValue(i: Int) | OtherValue

  /** One variable binding: an OID in dotted ASCII form and its value.  A Go
      string is indexed by byte; every character of an OID is ASCII, so one
      `char` stands for one byte. */
  datatype Pdu = Pdu(name: string, value: Value)

  datatype Option<T> = None | Some(value: T)
}
