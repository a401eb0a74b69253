/** Types shared by every model of the rental server. */
module Common {

  datatype Option<T> = None | Some(value: T)
  {
    function GetOr(default: T): T
    {
      if Some? then value else default
    }
  }

  /** An instant or a duration in milliseconds: what a JavaScript Date holds. */
  type Millis = int

  /** A reference to a user or a vehicle, in its string form. */
  type Id = string

  predicate IsHexDigit(c: char)
  {
    '0' <= c <= '9' || 'a' <= c <= 'f' || 'A' <= c <= 'F'
  }

  /** A string that casts to a MongoDB ObjectId: 24 hexadecimal digits. */
  predicate IsObjectId(s: string)
  {
    |s| == 24 && forall k :: 0 <= k < |s| ==> IsHexDigit(s[k])
  }

  /** `mongoose.Types.ObjectId.isValid(s) ? new ObjectId(s) : undefined`. */
  function AsObjectId(s: string): Option<Id>
  {
    if IsObjectId(s) then Some(s) else None
  }
}
