/**
  Coalition sides (dcso3/src/coalition.rs): the `Side` enum with its Lua
  integer codes, its text names, `opposite`, the default side and `SIDES`,
  plus the `Service` enum generated by the same macro.
*/
module Coalition {
  import opened Wrappers
  import LuaValues

  datatype Side = Neutral | Red | Blue | Green | Merc1 | Merc2 | Merc3

  /** The arms of `simple_enum!(Side, u8, [...])`, in declaration order. */
  const SIDE_ARMS: seq<(Side, int)> :=
    [(Neutral, 0), (Red, 1), (Blue, 2), (Green, 3), (Merc1, 4), (Merc2, 5), (Merc3, 6)]

  /** `SIDES` */
  const SIDES: seq<Side> := [Neutral, Red, Blue, Green, Merc1, Merc2, Merc3]

  /** The discriminant of a side. */
  function Code(s: Side): (n: nat)
    ensures n <= 6
    ensures SIDE_ARMS[n] == (s, n as int) && SIDES[n] == s
  {
    match s
    case Neutral => 0
    case Red => 1
    case Blue => 2
    case Green => 3
    case Merc1 => 4
    case Merc2 => 5
    case Merc3 => 6
  }

  lemma SideArmsWellFormed()
    ensures LuaValues.SimpleArms(SIDE_ARMS, LuaValues.U8)
  {
    forall i | 0 <= i < |SIDE_ARMS|
      ensures SIDE_ARMS[i].1 == i && Code(SIDE_ARMS[i].0) == i
    {
      if i == 0 {} else if i == 1 {} else if i == 2 {} else if i == 3 {}
      else if i == 4 {} else if i == 5 {} else {}
    }
  }

  /** The codes are 0..6, one per side, and `SIDES` lists each side once in code order. */
  lemma CodesAreDistinct()
    ensures forall a: Side, b: Side :: Code(a) == Code(b) ==> a == b
    ensures |SIDES| == 7 && forall i :: 0 <= i < 7 ==> Code(SIDES[i]) == i
    ensures forall s: Side :: s in SIDES
  {
    forall s: Side ensures s in SIDES {
      assert SIDES[Code(s)] == s;
    }
  }

  /** `Side::from_lua` */
  function SideFromLua(v: LuaValues.Value): Result<Side, LuaValues.ConversionError> {
    LuaValues.SimpleFromLua("Side", SIDE_ARMS, LuaValues.U8, v)
  }

  /** `Side::into_lua` */
  function SideIntoLua(s: Side): (v: LuaValues.Value)
    ensures v == LuaValues.Integer(Code(s))
  {
    SideArmsWellFormed();
    assert SIDE_ARMS[Code(s)].0 == s;
    LuaValues.SimpleIntoLua(SIDE_ARMS, LuaValues.U8, s)
  }

  /** A Lua integer decodes to a side exactly when it is one of the seven codes. */
  lemma SideFromInteger(n: LuaValues.Int64)
    ensures SideFromLua(LuaValues.Integer(n)).Ok? <==> 0 <= n <= 6
    ensures 0 <= n <= 6 ==> Code(SideFromLua(LuaValues.Integer(n)).value) == n
  {
    SideArmsWellFormed();
    if 0 <= n <= 6 {
      LuaValues.CaseOfLiteral(SIDE_ARMS, LuaValues.U8, n);
    } else if 0 <= n < 0x100 {
      LuaValues.SimpleRejectsUnlisted("Side", SIDE_ARMS, LuaValues.U8, n);
    }
  }

  lemma SideRoundTrip(s: Side)
    ensures SideFromLua(SideIntoLua(s)) == Ok(s)
  {
    SideArmsWellFormed();
    assert SIDE_ARMS[Code(s)].0 == s;
    LuaValues.SimpleRoundTrip("Side", SIDE_ARMS, LuaValues.U8, s);
  }

  /** `impl Default for Side` */
  function DefaultSide(): Side {
    Red
  }

  /** `to_str` */
  function ToStr(s: Side): string {
    match s
    case Blue => "blue"
    case Red => "red"
    case Neutral => "neutrals"
    case Green => "green"
    case Merc1 => "merc1"
    case Merc2 => "merc2"
    case Merc3 => "merc3"
  }

  /** `FromStr::from_str`: only the three classic coalitions are recognised. */
  function FromStr(s: string): Result<Side, string> {
    match s
    case "blue" => Ok(Blue)
    case "red" => Ok(Red)
    case "neutrals" => Ok(Neutral)
    case _ => Err("unknown side " + s)
  }

  /** `to_str` names every side differently. */
  lemma ToStrInjective(a: Side, b: Side)
    requires ToStr(a) == ToStr(b)
    ensures a == b
  {
  }

  /** Parsing inverts naming on Blue, Red and Neutral ... */
  lemma FromStrToStr(s: Side)
    requires s in {Blue, Red, Neutral}
    ensures FromStr(ToStr(s)) == Ok(s)
  {
  }

  /** ... and on nothing else: the names of Green and the mercenary sides are rejected. */
  lemma FromStrAccepts(s: string)
    ensures FromStr(s).Ok? <==> s in {"blue", "red", "neutrals"}
    ensures FromStr(s).Ok? ==> ToStr(FromStr(s).value) == s
    ensures forall side: Side :: side !in {Blue, Red, Neutral} ==> FromStr(ToStr(side)).Err?
  {
  }

  /** `opposite` */
  function Opposite(s: Side): Side {
    match s
    case Blue => Red
    case Red => Blue
    case Neutral => Neutral
    case Green => Neutral
    case Merc1 => Green
    case Merc2 => Green
    case Merc3 => Green
  }

  /** On the classic coalitions `opposite` is an involution that swaps Red and Blue. */
  lemma OppositeInvolution(s: Side)
    requires s in {Red, Blue, Neutral}
    ensures Opposite(s) in {Red, Blue, Neutral}
    ensures Opposite(Opposite(s)) == s
    ensures s != Neutral ==> Opposite(s) != s
  {
  }

  /** Green maps to Neutral, every mercenary side to Green, and no side to a mercenary one. */
  lemma OppositeOfOthers(s: Side)
    ensures s == Green ==> Opposite(s) == Neutral
    ensures s in {Merc1, Merc2, Merc3} ==> Opposite(s) == Green
    ensures Opposite(s) !in {Merc1, Merc2, Merc3}
  {
  }

  /** `simple_enum!(Service, u8, [Atc => 0, Awacs => 1, Fac => 3, Tanker => 2])` */
  datatype Service = Atc | Awacs | Fac | Tanker

  const SERVICE_ARMS: seq<(Service, int)> := [(Atc, 0), (Awacs, 1), (Fac, 3), (Tanker, 2)]

  function ServiceFromLua(v: LuaValues.Value): Result<Service, LuaValues.ConversionError> {
    LuaValues.SimpleFromLua("Service", SERVICE_ARMS, LuaValues.U8, v)
  }

  /** The discriminants follow the literals, not the declaration order: Fac is 3, Tanker 2. */
  lemma ServiceCodes()
    ensures ServiceFromLua(LuaValues.Integer(3)) == Ok(Fac)
    ensures ServiceFromLua(LuaValues.Integer(2)) == Ok(Tanker)
    ensures ServiceFromLua(LuaValues.Integer(4)) == Err(LuaValues.CvtErr("Service"))
  {
  }
}
