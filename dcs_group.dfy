/**
  Group category and objective owner as they cross the Lua boundary
  (src/dcs/group.rs).
*/
module DcsGroup {
  import opened Wrappers
  import LuaValues
  import Coalition

  /** `#[repr(u8)] enum GroupCategory` */
  datatype GroupCategory = Airplane | Ground | Helicopter | Ship | Train

  function CategoryCode(c: GroupCategory): nat {
    match c
    case Airplane => 0
    case Ground => 1
    case Helicopter => 2
    case Ship => 3
    case Train => 4
  }

  /** `GroupCategory::into_lua`: the discriminant as a Lua integer. */
  function CategoryIntoLua(c: GroupCategory): LuaValues.Value {
    LuaValues.Integer(CategoryCode(c))
  }

  /** `GroupCategory::from_lua`: decode a u32, then match the five discriminants. */
  function CategoryFromLua(v: LuaValues.Value): (r: Result<GroupCategory, LuaValues.ConversionError>) {
    match LuaValues.IntFromLua(LuaValues.U32, v)
    case Err(e) => Err(e)
    case Ok(n) =>
      if n == 0 then Ok(Airplane)
      else if n == 1 then Ok(Ground)
      else if n == 2 then Ok(Helicopter)
      else if n == 3 then Ok(Ship)
      else if n == 4 then Ok(Train)
      else Err(LuaValues.CvtErr("GroupCategory"))
  }

  lemma CategoryRoundTrip(c: GroupCategory)
    ensures CategoryFromLua(CategoryIntoLua(c)) == Ok(c)
  {
  }

  /** A value decodes exactly when it is a Lua integer 0..4, and then to the category with that code. */
  lemma CategoryDecodes(v: LuaValues.Value)
    ensures CategoryFromLua(v).Ok? <==> v.Integer? && 0 <= v.i <= 4
    ensures CategoryFromLua(v).Ok? ==> CategoryIntoLua(CategoryFromLua(v).value) == v
    ensures v.Integer? && 4 < v.i < 0x1_0000_0000 ==> CategoryFromLua(v) == Err(LuaValues.CvtErr("GroupCategory"))
  {
  }

  /** `enum Owner`: who holds an objective. */
  datatype Owner = Contested | Side(side: Coalition.Side)

  /** `Owner::from_lua`: a u32 first; 3 is Contested, anything else is read again as a `Side`, here the seven-side `Coalition.Side`. */
  function OwnerFromLua(v: LuaValues.Value): Result<Owner, LuaValues.ConversionError> {
    match LuaValues.IntFromLua(LuaValues.U32, v)
    case Err(e) => Err(e)
    case Ok(n) =>
      if n == 3 then Ok(Contested)
      else
        match Coalition.SideFromLua(v)
        case Err(e) => Err(e)
        case Ok(s) => Ok(Side(s))
  }

  /**
    Code 3 is Contested, so Owner never carries Green (whose side code is 3);
    an integer decodes exactly when it is 0..6, and codes other than 3 give
    the side with that code.
  */
  lemma OwnerDecodes(n: LuaValues.Int64)
    ensures OwnerFromLua(LuaValues.Integer(n)).Ok? <==> 0 <= n <= 6
    ensures n == 3 ==> OwnerFromLua(LuaValues.Integer(n)) == Ok(Contested)
    ensures 0 <= n <= 6 && n != 3 ==>
      && OwnerFromLua(LuaValues.Integer(n)).value.Side?
      && Coalition.Code(OwnerFromLua(LuaValues.Integer(n)).value.side) == n
    ensures OwnerFromLua(LuaValues.Integer(n)) != Ok(Side(Coalition.Green))
  {
    Coalition.SideFromInteger(n);
  }

  /** Every owner but `Side(Green)` is read back from the code it is stored under. */
  lemma OwnerRoundTrip(o: Owner)
    requires o != Side(Coalition.Green)
    ensures o.Contested? ==> OwnerFromLua(LuaValues.Integer(3)) == Ok(o)
    ensures o.Side? ==> OwnerFromLua(Coalition.SideIntoLua(o.side)) == Ok(o)
  {
    if o.Side? {
      Coalition.SideRoundTrip(o.side);
    }
  }

  /** Non-integer values are rejected by the u32 decoding before `Side` is consulted. */
  lemma OwnerRejectsNonIntegers(v: LuaValues.Value)
    requires !v.Integer?
    ensures OwnerFromLua(v) == Err(LuaValues.IntFromLua(LuaValues.U32, v).error)
    ensures OwnerFromLua(v).error.to == "u32"
  {
  }
}
