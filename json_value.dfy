/** `ay::JSON_value` (ay_json.h:17-46) as a tagged sum.

    The source keeps an untagged union next to a type byte `d_type`; here the
    variant is the tag, so a payload can only be read under its own tag.
    `VT_OBJECT` and `VT_ARRAY` are declared by the source but never set by
    anything in it, so they have no variant. */
module JsonValue {
  import opened Bytes

  datatype Value =
    | String(bytes: seq<byte>)   // setString: the token bytes
    | Int(i: int)                // setInt: what atoi made of the numeral
    | Real(text: seq<byte>)      // setDouble: the numeral handed to atof, kept as text
    | Bool(b: bool)              // setBool
    | Null                       // setNull
    | Undefined                  // setUndefined; also what the default constructor holds
}
