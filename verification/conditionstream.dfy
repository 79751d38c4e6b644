/** Conditions in a player's record: what is written, what is read back. */
module ConditionStream {
  import opened Arithmetic
  import opened Bytes
  import opened PropStreams

  type i8 = x: int | -128 <= x < 128

  // Attribute tags, in the order of the source's enumeration.
  const TYPE: u8 := 1
  const ID: u8 := 2
  const TICKS: u8 := 3
  const HEALTHTICKS: u8 := 4
  const HEALTHGAIN: u8 := 5
  const MANATICKS: u8 := 6
  const MANAGAIN: u8 := 7
  const DELAYED: u8 := 8
  const OWNER: u8 := 9
  const INTERVALDATA: u8 := 10
  const SPEEDDELTA: u8 := 11
  const FORMULA_MINA: u8 := 12
  const FORMULA_MINB: u8 := 13
  const FORMULA_MAXA: u8 := 14
  const FORMULA_MAXB: u8 := 15
  const LIGHTCOLOR: u8 := 16
  const LIGHTLEVEL: u8 := 17
  const LIGHTTICKS: u8 := 18
  const LIGHTINTERVAL: u8 := 19
  const SOULTICKS: u8 := 20
  const SOULGAIN: u8 := 21
  const SKILLS: u8 := 22
  const STATS: u8 := 23
  const OUTFIT: u8 := 24
  const PERIODDAMAGE: u8 := 25
  const ISBUFF: u8 := 26
  const SUBID: u8 := 27
  const DISABLEDEFENSE: u8 := 28
  const ISAGGRESSIVE: u8 := 29
  const END: u8 := 254

  const SKILL_COUNT := 7
  const STAT_COUNT := 4
  const OUTFIT_SIZE := 18
  const CONDITION_MUTED := 0x1_0000

  // ---------------------------------------------------------------------------
  // Conditions
  // ---------------------------------------------------------------------------

  datatype Interval = Interval(timeLeft: i32, value: i32, interval: i32)

  /** What each class of condition keeps beyond the common part; floats are kept as their four bytes. */
  datatype Payload =
    | Plain
    | Damage(delayed: bool, periodDamage: i32, intervals: seq<Interval>)
    | Speed(delta: i32, mina: u32, minb: u32, maxa: u32, maxb: u32)
    | Outfit(look: seq<byte>)
    | Light(color: u8, level: u8, lightTicks: u32, lightInterval: u32)
    | Regeneration(healthTicks: u32, healthGain: u32, manaTicks: u32, manaGain: u32)
    | Soul(soulGain: u32, soulTicks: u32)
    | Attributes(skills: seq<i32>, stats: seq<i32>, disableDefense: bool)

  datatype Record = Record(conditionType: nat, id: i8, ticks: i32, isBuff: bool, subId: u32, aggressive: bool,
                           lastEffTicks: int, payload: Payload, currentSkill: nat, currentStat: nat)

  datatype Class = NoClass | PlainClass | DamageClass | SpeedClass | OutfitClass | LightClass
                 | RegenerationClass | SoulClass | AttributesClass

  /** The class that the factory picks for a condition type. */
  function ClassOf(t: nat): Class {
    if t in {0x1, 0x2, 0x4, 0x8, 0x8000, 0x10_0000, 0x20_0000, 0x40_0000, 0x2000_0000} then DamageClass
    else if t in {0x10, 0x20, 0x1000_0000} then SpeedClass
    else if t == 0x40 then OutfitClass
    else if t == 0x100 then LightClass
    else if t == 0x2000 then RegenerationClass
    else if t == 0x4000 then SoulClass
    else if t == 0x8_0000 then AttributesClass
    else if t in {0x80, 0x200, 0x400, 0x800, 0x1000, 0x1_0000, 0x2_0000, 0x4_0000, 0x80_0000, 0x100_0000, 0x200_0000,
                  0x400_0000, 0x800_0000, 0x4000_0000, 0x8000_0000} then PlainClass
    else if t in {0x1_0000_0000, 0x2_0000_0000, 0x4_0000_0000, 0x8_0000_0000, 0x10_0000_0000, 0x20_0000_0000,
                  0x40_0000_0000, 0x80_0000_0000, 0x100_0000_0000, 0x200_0000_0000} then PlainClass
    else NoClass
  }

  function Zeros(n: nat): seq<i32> { seq(n, i => 0) }

  /** What a new condition of a class starts with. */
  function Blank(c: Class): Payload {
    match c
    case DamageClass => Damage(false, 0, [])
    case SpeedClass => Speed(0, 0, 0, 0, 0)
    case OutfitClass => Outfit(seq(OUTFIT_SIZE, i => 0))
    case LightClass => Light(0, 0, 0, 0)
    case RegenerationClass => Regeneration(1000, 0, 1000, 0)
    case SoulClass => Soul(0, 0)
    case AttributesClass => Attributes(Zeros(SKILL_COUNT), Zeros(STAT_COUNT), false)
    case _ => Plain
  }

  predicate Fits(c: Class, p: Payload) {
    match c
    case DamageClass => p.Damage?
    case SpeedClass => p.Speed?
    case OutfitClass => p.Outfit? && |p.look| == OUTFIT_SIZE
    case LightClass => p.Light?
    case RegenerationClass => p.Regeneration?
    case SoulClass => p.Soul?
    case AttributesClass => p.Attributes? && |p.skills| == SKILL_COUNT && |p.stats| == STAT_COUNT
    case PlainClass => p.Plain?
    case NoClass => false
  }

  /** A condition as the game makes them: a known type and the payload of its class. */
  predicate Proper(r: Record) { Fits(ClassOf(r.conditionType), r.payload) }

  predicate Persistent(r: Record) {
    r.ticks != -1 && (r.id == -1 || r.id == 0 || r.conditionType == CONDITION_MUTED)
  }

  // ---------------------------------------------------------------------------
  // Writing
  // ---------------------------------------------------------------------------

  datatype Field = Field(tag: u8, data: seq<byte>)

  function Bool(b: bool): u8 { if b then 1 else 0 }

  function Int(v: i32): seq<byte> { PutU32(AsU32(v)) }

  function IntervalBytes(i: Interval): seq<byte> { Int(i.timeLeft) + Int(i.value) + Int(i.interval) }

  function IntervalFields(s: seq<Interval>): seq<Field> {
    if s == [] then [] else IntervalFields(s[..|s| - 1]) + [Field(INTERVALDATA, IntervalBytes(s[|s| - 1]))]
  }

  function NumberFields(tag: u8, s: seq<i32>): seq<Field> {
    if s == [] then [] else NumberFields(tag, s[..|s| - 1]) + [Field(tag, Int(s[|s| - 1]))]
  }

  /** The fields that a class writes after the common part, in order. */
  function Fields(p: Payload): seq<Field> {
    match p
    case Plain => []
    case Damage(delayed, periodDamage, intervals) =>
      [Field(DELAYED, [Bool(delayed)]), Field(PERIODDAMAGE, Int(periodDamage))] + IntervalFields(intervals)
    case Speed(delta, mina, minb, maxa, maxb) =>
      [Field(SPEEDDELTA, Int(delta)), Field(FORMULA_MINA, PutU32(mina)), Field(FORMULA_MINB, PutU32(minb)),
       Field(FORMULA_MAXA, PutU32(maxa)), Field(FORMULA_MAXB, PutU32(maxb))]
    case Outfit(look) => [Field(OUTFIT, look)]
    case Light(color, level, lightTicks, lightInterval) =>
      [Field(LIGHTCOLOR, PutU32(color as int)), Field(LIGHTLEVEL, PutU32(level as int)), Field(LIGHTTICKS, PutU32(lightTicks)),
       Field(LIGHTINTERVAL, PutU32(lightInterval))]
    case Regeneration(healthTicks, healthGain, manaTicks, manaGain) =>
      [Field(HEALTHTICKS, PutU32(healthTicks)), Field(HEALTHGAIN, PutU32(healthGain)), Field(MANATICKS, PutU32(manaTicks)),
       Field(MANAGAIN, PutU32(manaGain))]
    case Soul(soulGain, soulTicks) => [Field(SOULGAIN, PutU32(soulGain)), Field(SOULTICKS, PutU32(soulTicks))]
    case Attributes(skills, stats, disableDefense) =>
      NumberFields(SKILLS, skills) + NumberFields(STATS, stats) + [Field(DISABLEDEFENSE, [Bool(disableDefense)])]
  }

  function Flat(fs: seq<Field>): seq<byte> {
    if fs == [] then [] else Flat(fs[..|fs| - 1]) + [fs[|fs| - 1].tag] + fs[|fs| - 1].data
  }

  /** The low 32 bits of a condition type. */
  function Low(t: nat): u32 { t % 0x1_0000_0000 }

  function Header(r: Record): seq<byte> {
    [TYPE] + PutU32(Low(r.conditionType)) + [ID] + PutU32(AsU32(r.id)) + [TICKS] + PutU32(AsU32(r.ticks))
    + [ISBUFF, Bool(r.isBuff)] + [SUBID] + PutU32(r.subId) + [ISAGGRESSIVE, Bool(r.aggressive)]
  }

  function Serialized(r: Record): seq<byte> { Header(r) + Flat(Fields(r.payload)) + [END] }

  /** The persistent conditions of a list, one after the other. */
  function Saved(rs: seq<Record>): seq<byte> {
    if rs == [] then [] else (if Persistent(rs[0]) then Serialized(rs[0]) else []) + Saved(rs[1..])
  }

  // ---------------------------------------------------------------------------
  // Reading
  // ---------------------------------------------------------------------------

  function ToI8(v: int): i8 { var b := v % 256; if b < 128 then b else b - 256 }

  /** Signed 32-bit addition. */
  function AddI32(a: i32, b: i32): i32 {
    var s: int := a as int + b as int;
    if s < -0x8000_0000 then s + 0x1_0000_0000 else if s >= 0x8000_0000 then s - 0x1_0000_0000 else s
  }

  /** How many bytes class data with this tag has, or -1 if the class does not know the tag. */
  function OwnWidth(r: Record, tag: u8): int {
    match r.payload
    case Damage(_, _, _) =>
      if tag == DELAYED then 1 else if tag == PERIODDAMAGE || tag == OWNER then 4 else if tag == INTERVALDATA then 12 else -1
    case Speed(_, _, _, _, _) => if SPEEDDELTA <= tag <= FORMULA_MAXB then 4 else -1
    case Outfit(_) => if tag == OUTFIT then OUTFIT_SIZE else -1
    case Light(_, _, _, _) => if LIGHTCOLOR <= tag <= LIGHTINTERVAL then 4 else -1
    case Regeneration(_, _, _, _) => if HEALTHTICKS <= tag <= MANAGAIN then 4 else -1
    case Soul(_, _) => if tag == SOULTICKS || tag == SOULGAIN then 4 else -1
    case Attributes(skills, stats, _) =>
      if tag == SKILLS && r.currentSkill < |skills| then 4
      else if tag == STATS && r.currentStat < |stats| then 4
      else if tag == DISABLEDEFENSE then 1 else -1
    case Plain => -1
  }

  /** How many bytes the common part expects after this tag, or -1. */
  function CommonWidth(tag: u8): int {
    if tag in {TYPE, ID, TICKS, SUBID} then 4 else if tag in {ISBUFF, ISAGGRESSIVE} then 1 else -1
  }

  function Width(r: Record, tag: u8): int { if OwnWidth(r, tag) >= 0 then OwnWidth(r, tag) else CommonWidth(tag) }

  function GetInt(s: seq<byte>): i32
    requires |s| == 4
  {
    AsI32(GetU32(s))
  }

  function GetInterval(s: seq<byte>): Interval
    requires |s| == 12
  {
    Interval(GetInt(s[..4]), GetInt(s[4..8]), GetInt(s[8..]))
  }

  function StoreOwn(r: Record, tag: u8, d: seq<byte>): Record
    requires OwnWidth(r, tag) == |d|
  {
    var p := r.payload;
    match p
    case Damage(_, _, _) =>
      if tag == DELAYED then r.(payload := p.(delayed := d[0] != 0))
      else if tag == PERIODDAMAGE then r.(payload := p.(periodDamage := GetInt(d)))
      else if tag == OWNER then r
      else
        var i := GetInterval(d);
        r.(payload := p.(intervals := p.intervals + [i]), ticks := if r.ticks != -1 then AddI32(r.ticks, i.interval) else r.ticks)
    case Speed(_, _, _, _, _) =>
      r.(payload := if tag == SPEEDDELTA then p.(delta := GetInt(d))
                    else if tag == FORMULA_MINA then p.(mina := GetU32(d))
                    else if tag == FORMULA_MINB then p.(minb := GetU32(d))
                    else if tag == FORMULA_MAXA then p.(maxa := GetU32(d))
                    else p.(maxb := GetU32(d)))
    case Outfit(_) => r.(payload := Outfit(d))
    case Light(_, _, _, _) =>
      r.(payload := if tag == LIGHTCOLOR then p.(color := GetU32(d) % 256)
                    else if tag == LIGHTLEVEL then p.(level := GetU32(d) % 256)
                    else if tag == LIGHTTICKS then p.(lightTicks := GetU32(d))
                    else p.(lightInterval := GetU32(d)))
    case Regeneration(_, _, _, _) =>
      r.(payload := if tag == HEALTHTICKS then p.(healthTicks := GetU32(d))
                    else if tag == HEALTHGAIN then p.(healthGain := GetU32(d))
                    else if tag == MANATICKS then p.(manaTicks := GetU32(d))
                    else p.(manaGain := GetU32(d)))
    case Soul(_, _) => r.(payload := if tag == SOULGAIN then p.(soulGain := GetU32(d)) else p.(soulTicks := GetU32(d)))
    case Attributes(_, _, _) =>
      if tag == SKILLS then r.(payload := p.(skills := p.skills[r.currentSkill := GetInt(d)]), currentSkill := r.currentSkill + 1)
      else if tag == STATS then r.(payload := p.(stats := p.stats[r.currentStat := GetInt(d)]), currentStat := r.currentStat + 1)
      else r.(payload := p.(disableDefense := d[0] != 0))
    case Plain => r
  }

  function StoreCommon(r: Record, tag: u8, d: seq<byte>): Record
    requires CommonWidth(tag) == |d|
  {
    if tag == TYPE then r.(conditionType := AsU64(GetInt(d)))
    else if tag == ID then r.(id := ToI8(GetInt(d)))
    else if tag == TICKS then r.(ticks := GetInt(d))
    else if tag == SUBID then r.(subId := GetU32(d))
    else if tag == ISBUFF then r.(isBuff := d[0] != 0)
    else r.(aggressive := d[0] != 0)
  }

  /** A signed value converted to a 64-bit condition type. */
  function AsU64(v: i32): nat { if v < 0 then v + 0x1_0000_0000_0000_0000 else v }

  function Store(r: Record, tag: u8, d: seq<byte>): Record
    requires Width(r, tag) == |d|
  {
    if OwnWidth(r, tag) >= 0 then StoreOwn(r, tag, d) else StoreCommon(r, tag, d)
  }

  /** Reads attributes until the end mark or the end of the bytes; fails at an unknown or incomplete one. */
  function Unserialized(r: Record, s: seq<byte>): (bool, Record, seq<byte>)
    decreases |s|
  {
    if s == [] then (true, r, s)
    else if s[0] == END then (true, r, s[1..])
    else
      var w := Width(r, s[0]);
      if w < 0 || |s| - 1 < w then (false, r, s[1..])
      else Unserialized(Store(r, s[0], s[1..w + 1]), s[w + 1..])
  }

  datatype Created = NotCreated | Created(r: Record, rest: seq<byte>)

  /**
   * The condition that the factory makes. A damage condition starts with no ticks. The constructors pass the buff flag
   * where the common part expects effect ticks, so the flags that follow each land one place further; the two bonus
   * conditions take it for the bonus and have no effect ticks.
   */
  function Made(t: nat, id: i8, ticks: i32, buff: bool, subId: u32, aggressive: bool): Record {
    Record(t, id, if ClassOf(t) == DamageClass then 0 else ticks, subId != 0, Bool(aggressive) as int, false,
           EffectTicks(t, buff), Blank(ClassOf(t)), 0, 0)
  }

  function EffectTicks(t: nat, buff: bool): int { if IsBonus(t) then 0 else Bool(buff) as int }

  predicate IsBonus(t: nat) { t == 0x1_0000_0000 || t == 0x20_0000_0000 }

  const HEADER_SIZE := 24

  predicate HeaderTags(s: seq<byte>)
    requires |s| >= HEADER_SIZE
  {
    s[0] == TYPE && s[5] == ID && s[10] == TICKS && s[15] == ISBUFF && s[17] == SUBID && s[22] == ISAGGRESSIVE
  }

  function Creation(s: seq<byte>): Created {
    if |s| < HEADER_SIZE || !HeaderTags(s) then NotCreated
    else
      var t := GetU32(s[1..5]);
      if ClassOf(t) == NoClass then NotCreated
      else Created(Made(t, ToI8(GetU32(s[6..10])), AsI32(GetU32(s[11..15])), s[16] != 0, GetU32(s[18..22]), s[23] != 0), s[24..])
  }

  /** All conditions that can be read, the last one first. */
  function Loaded(s: seq<byte>): seq<Record>
    decreases |s|
  {
    match Creation(s)
    case NotCreated => []
    case Created(r, rest) =>
      var (ok, read, after) := Unserialized(r, rest);
      UnserializedShrinks(r, rest);
      Loaded(after) + if ok then [read] else []
  }

  lemma {:induction false} UnserializedShrinks(r: Record, s: seq<byte>)
    ensures |Unserialized(r, s).2| <= |s|
    decreases |s|
  {
    if s != [] && s[0] != END {
      var w := Width(r, s[0]);
      if 0 <= w <= |s| - 1 {
        UnserializedShrinks(Store(r, s[0], s[1..w + 1]), s[w + 1..]);
      }
    }
  }

  // ---------------------------------------------------------------------------
  // Fields are read back one by one
  // ---------------------------------------------------------------------------

  /** Stores the fields in order, as long as each is one that the condition expects. */
  function Taken(r: Record, fs: seq<Field>): (bool, Record) {
    if fs == [] then (true, r)
    else
      var f := fs[|fs| - 1];
      var (ok, q) := Taken(r, fs[..|fs| - 1]);
      if ok && f.tag != END && Width(q, f.tag) == |f.data| then (true, Store(q, f.tag, f.data)) else (false, q)
  }

  lemma {:induction false} FieldRead(r: Record, f: Field, tail: seq<byte>)
    requires f.tag != END && Width(r, f.tag) == |f.data|
    ensures Unserialized(r, [f.tag] + f.data + tail) == Unserialized(Store(r, f.tag, f.data), tail)
  {
    var s := [f.tag] + f.data + tail;
    assert s[1..|f.data| + 1] == f.data && s[|f.data| + 1..] == tail;
    hide Store, Width;
  }

  /** Bytes of fields that are expected lead to the same state as storing the fields. */
  lemma {:induction false} FieldsRead(r: Record, fs: seq<Field>, tail: seq<byte>)
    requires Taken(r, fs).0
    ensures Unserialized(r, Flat(fs) + tail) == Unserialized(Taken(r, fs).1, tail)
  {
    if fs == [] {
      assert Flat(fs) + tail == tail;
    } else {
      var n := |fs| - 1;
      var f := fs[n];
      assert Flat(fs) + tail == Flat(fs[..n]) + ([f.tag] + f.data + tail);
      hide Unserialized, Store, Width, Flat;
      FieldsRead(r, fs[..n], [f.tag] + f.data + tail);
      FieldRead(Taken(r, fs[..n]).1, f, tail);
    }
  }

  lemma {:induction false} TakenMore(r: Record, fs: seq<Field>, f: Field, q: Record)
    requires Taken(r, fs) == (true, q) && f.tag != END && Width(q, f.tag) == |f.data|
    ensures Taken(r, fs + [f]) == (true, Store(q, f.tag, f.data))
  {
    assert (fs + [f])[..|fs|] == fs;
    hide Store, Width;
  }

  lemma {:induction false} IntBack(v: i32)
    ensures |Int(v)| == 4 && GetInt(Int(v)) == v
  {
    hide PutU32, GetU32;
    U32RoundTrip(AsU32(v));
    I32RoundTrip(v);
  }

  lemma {:induction false} IntervalBack(i: Interval)
    ensures |IntervalBytes(i)| == 12 && GetInterval(IntervalBytes(i)) == i
  {
    hide Int, GetInt;
    IntBack(i.timeLeft);
    IntBack(i.value);
    IntBack(i.interval);
    var a, b, c := Int(i.timeLeft), Int(i.value), Int(i.interval);
    assert (a + b + c)[..4] == a && (a + b + c)[4..8] == b && (a + b + c)[8..] == c;
  }

  // ---------------------------------------------------------------------------
  // Each class reads its own fields back
  // ---------------------------------------------------------------------------

  /** The ticks after adding the intervals one by one; once they are -1 they stay. */
  function TicksAfter(ticks: i32, s: seq<Interval>): i32 {
    if s == [] then ticks
    else
      var t := TicksAfter(ticks, s[..|s| - 1]);
      if t != -1 then AddI32(t, s[|s| - 1].interval) else t
  }

  /** The state with more intervals listed and their ticks added. */
  function WithIntervals(q: Record, s: seq<Interval>): Record
    requires q.payload.Damage?
  {
    q.(payload := q.payload.(intervals := q.payload.intervals + s), ticks := TicksAfter(q.ticks, s))
  }

  lemma {:induction false} OneInterval(q: Record, s: seq<Interval>, i: Interval)
    requires q.payload.Damage?
    ensures var p := WithIntervals(q, s);
            && Width(p, INTERVALDATA) == |IntervalBytes(i)| && INTERVALDATA != END
            && Store(p, INTERVALDATA, IntervalBytes(i)) == WithIntervals(q, s + [i])
  {
    hide IntervalBytes, GetInterval;
    IntervalBack(i);
    assert q.payload.intervals + s + [i] == q.payload.intervals + (s + [i]);
    assert (s + [i])[..|s|] == s;
  }

  lemma {:induction false} NoIntervals(q: Record)
    requires q.payload.Damage?
    ensures WithIntervals(q, []) == q
  {
    assert q.payload.intervals + [] == q.payload.intervals;
  }

  lemma {:induction false} LastInterval(s: seq<Interval>)
    requires s != []
    ensures var n := |s| - 1;
            IntervalFields(s) == IntervalFields(s[..n]) + [Field(INTERVALDATA, IntervalBytes(s[n]))] && s[..n] + [s[n]] == s
  {
  }

  lemma {:induction false} IntervalsTaken(r: Record, fs: seq<Field>, q: Record, s: seq<Interval>)
    requires Taken(r, fs) == (true, q) && q.payload.Damage?
    ensures Taken(r, fs + IntervalFields(s)) == (true, WithIntervals(q, s))
    decreases |s|
  {
    hide Taken, IntervalBytes, WithIntervals, Width, Store;
    if s == [] {
      NoIntervals(q);
      assert fs + IntervalFields(s) == fs;
    } else {
      var n := |s| - 1;
      var f, g := Field(INTERVALDATA, IntervalBytes(s[n])), IntervalFields(s[..n]);
      LastInterval(s);
      hide IntervalFields;
      IntervalsTaken(r, fs, q, s[..n]);
      OneInterval(q, s[..n], s[n]);
      TakenMore(r, fs + g, f, WithIntervals(q, s[..n]));
      assert fs + (g + [f]) == fs + g + [f];
    }
  }

  lemma {:induction false} DamageTaken(r: Record, p: Payload)
    requires r.payload == Damage(false, 0, []) && p.Damage?
    ensures Taken(r, Fields(p)) == (true, r.(payload := p, ticks := TicksAfter(r.ticks, p.intervals)))
  {
    var a, b := Field(DELAYED, [Bool(p.delayed)]), Field(PERIODDAMAGE, Int(p.periodDamage));
    IntBack(p.periodDamage);
    hide IntervalFields, TicksAfter, Int, GetInt;
    assert Taken(r, []) == (true, r);
    var q := r.(payload := Damage(p.delayed, 0, []));
    TakenMore(r, [], a, r);
    assert [] + [a] == [a];
    TakenMore(r, [a], b, q);
    assert [a] + [b] == [a, b];
    var q2 := r.(payload := Damage(p.delayed, p.periodDamage, []));
    IntervalsTaken(r, [a, b], q2, p.intervals);
    assert [] + p.intervals == p.intervals;
  }

  /** The numbers `s` stored from the first place on. */
  function Filled(was: seq<i32>, s: seq<i32>): seq<i32>
    requires |s| <= |was|
  {
    s + was[|s|..]
  }

  lemma {:induction false} OneSkill(q: Record, s: seq<i32>, v: i32)
    requires q.payload.Attributes? && |s| < |q.payload.skills| && q.currentSkill == 0
    ensures var p := q.(payload := q.payload.(skills := Filled(q.payload.skills, s)), currentSkill := |s|);
            && Width(p, SKILLS) == |Int(v)| && SKILLS != END
            && Store(p, SKILLS, Int(v)) ==
               q.(payload := q.payload.(skills := Filled(q.payload.skills, s + [v])), currentSkill := |s| + 1)
  {
    hide Int, GetInt;
    IntBack(v);
    assert Filled(q.payload.skills, s)[|s| := v] == Filled(q.payload.skills, s + [v]);
  }

  lemma {:induction false} SkillsTaken(r: Record, fs: seq<Field>, q: Record, s: seq<i32>)
    requires Taken(r, fs) == (true, q) && q.payload.Attributes? && |s| <= |q.payload.skills| && q.currentSkill == 0
    ensures Taken(r, fs + NumberFields(SKILLS, s)) ==
            (true, q.(payload := q.payload.(skills := Filled(q.payload.skills, s)), currentSkill := |s|))
  {
    if s == [] {
      assert fs + NumberFields(SKILLS, s) == fs && Filled(q.payload.skills, s) == q.payload.skills;
    } else {
      var n := |s| - 1;
      var f := Field(SKILLS, Int(s[n]));
      hide Taken, Int, Width, Store, Filled;
      SkillsTaken(r, fs, q, s[..n]);
      OneSkill(q, s[..n], s[n]);
      TakenMore(r, fs + NumberFields(SKILLS, s[..n]), f,
                q.(payload := q.payload.(skills := Filled(q.payload.skills, s[..n])), currentSkill := n));
      assert fs + NumberFields(SKILLS, s) == fs + NumberFields(SKILLS, s[..n]) + [f];
      assert s[..n] + [s[n]] == s;
    }
  }

  lemma {:induction false} OneStat(q: Record, s: seq<i32>, v: i32)
    requires q.payload.Attributes? && |s| < |q.payload.stats| && q.currentStat == 0
    ensures var p := q.(payload := q.payload.(stats := Filled(q.payload.stats, s)), currentStat := |s|);
            && Width(p, STATS) == |Int(v)| && STATS != END
            && Store(p, STATS, Int(v)) ==
               q.(payload := q.payload.(stats := Filled(q.payload.stats, s + [v])), currentStat := |s| + 1)
  {
    hide Int, GetInt;
    IntBack(v);
    assert Filled(q.payload.stats, s)[|s| := v] == Filled(q.payload.stats, s + [v]);
  }

  lemma {:induction false} StatsTaken(r: Record, fs: seq<Field>, q: Record, s: seq<i32>)
    requires Taken(r, fs) == (true, q) && q.payload.Attributes? && |s| <= |q.payload.stats| && q.currentStat == 0
    ensures Taken(r, fs + NumberFields(STATS, s)) ==
            (true, q.(payload := q.payload.(stats := Filled(q.payload.stats, s)), currentStat := |s|))
  {
    if s == [] {
      assert fs + NumberFields(STATS, s) == fs && Filled(q.payload.stats, s) == q.payload.stats;
    } else {
      var n := |s| - 1;
      var f := Field(STATS, Int(s[n]));
      hide Taken, Int, Width, Store, Filled;
      StatsTaken(r, fs, q, s[..n]);
      OneStat(q, s[..n], s[n]);
      TakenMore(r, fs + NumberFields(STATS, s[..n]), f,
                q.(payload := q.payload.(stats := Filled(q.payload.stats, s[..n])), currentStat := n));
      assert fs + NumberFields(STATS, s) == fs + NumberFields(STATS, s[..n]) + [f];
      assert s[..n] + [s[n]] == s;
    }
  }

  lemma {:induction false} TakenNone(r: Record)
    ensures Taken(r, []) == (true, r)
  {
  }

  lemma {:induction false} FilledUp(was: seq<i32>, s: seq<i32>)
    requires |was| == |s|
    ensures Filled(was, s) == s
  {
  }

  lemma {:induction false} AttributesTaken(r: Record, p: Payload)
    requires r.payload.Attributes? && r.currentSkill == 0 && r.currentStat == 0 && p.Attributes?
    requires |r.payload.skills| == |p.skills| && |r.payload.stats| == |p.stats|
    ensures Taken(r, Fields(p)) == (true, r.(payload := p, currentSkill := |p.skills|, currentStat := |p.stats|))
  {
    hide NumberFields, Taken, Filled;
    var a, b, c := NumberFields(SKILLS, p.skills), NumberFields(STATS, p.stats), Field(DISABLEDEFENSE, [Bool(p.disableDefense)]);
    TakenNone(r);
    FilledUp(r.payload.skills, p.skills);
    FilledUp(r.payload.stats, p.stats);
    SkillsTaken(r, [], r, p.skills);
    var q := r.(payload := r.payload.(skills := p.skills), currentSkill := |p.skills|);
    assert [] + a == a;
    StatsTaken(r, a, q, p.stats);
    var q2 := q.(payload := q.payload.(stats := p.stats), currentStat := |p.stats|);
    TakenMore(r, a + b, c, q2);
  }

  // The classes with a fixed list of fields.

  lemma {:induction false} WordBack(v: u32)
    ensures |PutU32(v)| == 4 && GetU32(PutU32(v)) == v
  {
    U32RoundTrip(v);
  }

  /** Two, four or five fields in order. */
  lemma {:induction false} TwoTaken(r: Record, a: Field, b: Field, q: Record)
    requires a.tag != END && b.tag != END && Width(r, a.tag) == |a.data| && q == Store(r, a.tag, a.data)
    requires Width(q, b.tag) == |b.data|
    ensures Taken(r, [a, b]) == (true, Store(q, b.tag, b.data))
  {
    assert Taken(r, []) == (true, r);
    assert [] + [a] == [a] && [a] + [b] == [a, b];
    hide *;
    TakenMore(r, [], a, r);
    TakenMore(r, [a], b, q);
  }

  lemma {:induction false} FourTaken(r: Record, a: Field, b: Field, c: Field, d: Field, q1: Record, q2: Record, q3: Record)
    requires a.tag != END && b.tag != END && c.tag != END && d.tag != END
    requires Width(r, a.tag) == |a.data| && q1 == Store(r, a.tag, a.data)
    requires Width(q1, b.tag) == |b.data| && q2 == Store(q1, b.tag, b.data)
    requires Width(q2, c.tag) == |c.data| && q3 == Store(q2, c.tag, c.data)
    requires Width(q3, d.tag) == |d.data|
    ensures Taken(r, [a, b, c, d]) == (true, Store(q3, d.tag, d.data))
  {
    assert [a, b] + [c] == [a, b, c] && [a, b, c] + [d] == [a, b, c, d];
    hide *;
    TwoTaken(r, a, b, q1);
    TakenMore(r, [a, b], c, q2);
    TakenMore(r, [a, b, c], d, q3);
  }

  lemma {:induction false} LightTaken(r: Record, p: Payload)
    requires r.payload.Light? && p.Light?
    ensures Taken(r, Fields(p)) == (true, r.(payload := p))
  {
    hide PutU32, GetU32, Taken;
    WordBack(p.color);
    WordBack(p.level);
    WordBack(p.lightTicks);
    WordBack(p.lightInterval);
    var q1 := r.(payload := r.payload.(color := p.color));
    var q2 := r.(payload := r.payload.(color := p.color, level := p.level));
    var q3 := r.(payload := p.(lightInterval := r.payload.lightInterval));
    FourTaken(r, Field(LIGHTCOLOR, PutU32(p.color as int)), Field(LIGHTLEVEL, PutU32(p.level as int)),
              Field(LIGHTTICKS, PutU32(p.lightTicks)), Field(LIGHTINTERVAL, PutU32(p.lightInterval)), q1, q2, q3);
  }

  lemma {:induction false} RegenerationTaken(r: Record, p: Payload)
    requires r.payload.Regeneration? && p.Regeneration?
    ensures Taken(r, Fields(p)) == (true, r.(payload := p))
  {
    hide PutU32, GetU32, Taken;
    WordBack(p.healthTicks);
    WordBack(p.healthGain);
    WordBack(p.manaTicks);
    WordBack(p.manaGain);
    var q1 := r.(payload := r.payload.(healthTicks := p.healthTicks));
    var q2 := r.(payload := r.payload.(healthTicks := p.healthTicks, healthGain := p.healthGain));
    var q3 := r.(payload := p.(manaGain := r.payload.manaGain));
    FourTaken(r, Field(HEALTHTICKS, PutU32(p.healthTicks)), Field(HEALTHGAIN, PutU32(p.healthGain)),
              Field(MANATICKS, PutU32(p.manaTicks)), Field(MANAGAIN, PutU32(p.manaGain)), q1, q2, q3);
  }

  lemma {:induction false} SpeedTaken(r: Record, p: Payload)
    requires r.payload.Speed? && p.Speed?
    ensures Taken(r, Fields(p)) == (true, r.(payload := p))
  {
    var a, b, c := Field(SPEEDDELTA, Int(p.delta)), Field(FORMULA_MINA, PutU32(p.mina)), Field(FORMULA_MINB, PutU32(p.minb));
    var d, e := Field(FORMULA_MAXA, PutU32(p.maxa)), Field(FORMULA_MAXB, PutU32(p.maxb));
    hide PutU32, GetU32, Int, GetInt, Taken;
    IntBack(p.delta);
    WordBack(p.mina);
    WordBack(p.minb);
    WordBack(p.maxa);
    WordBack(p.maxb);
    var q1 := r.(payload := r.payload.(delta := p.delta));
    var q2 := r.(payload := r.payload.(delta := p.delta, mina := p.mina));
    var q3 := r.(payload := r.payload.(delta := p.delta, mina := p.mina, minb := p.minb));
    FourTaken(r, a, b, c, d, q1, q2, q3);
    TakenMore(r, [a, b, c, d], e, r.(payload := p.(maxb := r.payload.maxb)));
    assert [a, b, c, d] + [e] == [a, b, c, d, e];
  }

  lemma {:induction false} SoulTaken(r: Record, p: Payload)
    requires r.payload.Soul? && p.Soul?
    ensures Taken(r, Fields(p)) == (true, r.(payload := p))
  {
    hide PutU32, GetU32, Taken;
    WordBack(p.soulGain);
    WordBack(p.soulTicks);
    TwoTaken(r, Field(SOULGAIN, PutU32(p.soulGain)), Field(SOULTICKS, PutU32(p.soulTicks)),
             r.(payload := r.payload.(soulGain := p.soulGain)));
  }

  lemma {:induction false} OutfitTaken(r: Record, p: Payload)
    requires r.payload.Outfit? && p.Outfit? && |p.look| == OUTFIT_SIZE
    ensures Taken(r, Fields(p)) == (true, r.(payload := p))
  {
    assert Taken(r, []) == (true, r);
    var f := Field(OUTFIT, p.look);
    assert [] + [f] == [f];
    TakenMore(r, [], f, r);
  }

  // ---------------------------------------------------------------------------
  // One condition
  // ---------------------------------------------------------------------------

  /** What a saved condition looks like after it has been read. */
  function Restored(c: Record): Record {
    Record(c.conditionType, c.id, if c.payload.Damage? then TicksAfter(0, c.payload.intervals) else c.ticks,
           c.subId != 0, Bool(c.aggressive) as int, false, EffectTicks(c.conditionType, c.isBuff), c.payload,
           if c.payload.Attributes? then SKILL_COUNT else 0, if c.payload.Attributes? then STAT_COUNT else 0)
  }

  function Remade(c: Record): Record { Made(c.conditionType, c.id, c.ticks, c.isBuff, c.subId, c.aggressive) }

  lemma {:induction false} PayloadTaken(c: Record)
    requires Proper(c)
    ensures Taken(Remade(c), Fields(c.payload)) == (true, Restored(c))
  {
    var r, p := Remade(c), c.payload;
    hide Fields, TicksAfter, Taken;
    match ClassOf(c.conditionType)
    case DamageClass => DamageTaken(r, p);
    case SpeedClass => SpeedTaken(r, p);
    case OutfitClass => OutfitTaken(r, p);
    case LightClass => LightTaken(r, p);
    case RegenerationClass => RegenerationTaken(r, p);
    case SoulClass => SoulTaken(r, p);
    case AttributesClass => AttributesTaken(r, p);
    case PlainClass => PlainTaken(r);
    case NoClass =>
  }

  lemma {:induction false} PlainTaken(r: Record)
    ensures Taken(r, Fields(Plain)) == (true, r)
  {
  }

  /** The parts of a header are where the reader looks for them. */
  lemma {:induction false} HeaderParts(a: seq<byte>, b: seq<byte>, c: seq<byte>, x: byte, d: seq<byte>, y: byte, tail: seq<byte>)
    requires |a| == 4 && |b| == 4 && |c| == 4 && |d| == 4
    ensures var s := [TYPE] + a + [ID] + b + [TICKS] + c + [ISBUFF, x] + [SUBID] + d + [ISAGGRESSIVE, y] + tail;
            && |s| >= HEADER_SIZE && HeaderTags(s)
            && s[1..5] == a && s[6..10] == b && s[11..15] == c && s[16] == x && s[18..22] == d && s[23] == y && s[24..] == tail
  {
  }

  lemma {:induction false} IdBack(id: i8)
    ensures ToI8(AsU32(id)) == id
  {
  }

  lemma {:induction false} HeaderShape(c: Record, tail: seq<byte>)
    ensures var s := Header(c) + tail;
            && |s| >= HEADER_SIZE && HeaderTags(s)
            && s[1..5] == PutU32(Low(c.conditionType)) && s[6..10] == PutU32(AsU32(c.id)) && s[11..15] == PutU32(AsU32(c.ticks))
            && s[16] == Bool(c.isBuff) && s[18..22] == PutU32(c.subId) && s[23] == Bool(c.aggressive) && s[24..] == tail
  {
    hide PutU32, HeaderTags, Low, AsU32, Bool;
    WordBack(Low(c.conditionType));
    WordBack(AsU32(c.id));
    WordBack(AsU32(c.ticks));
    WordBack(c.subId);
    HeaderParts(PutU32(Low(c.conditionType)), PutU32(AsU32(c.id)), PutU32(AsU32(c.ticks)), Bool(c.isBuff), PutU32(c.subId),
                Bool(c.aggressive), tail);
  }

  lemma {:induction false} HeaderRead(c: Record, tail: seq<byte>)
    requires Proper(c) && c.conditionType < 0x1_0000_0000
    ensures Creation(Header(c) + tail) == Created(Remade(c), tail)
  {
    hide PutU32, GetU32, Made, Fits, HeaderTags, Header, ClassOf;
    HeaderShape(c, tail);
    WordBack(Low(c.conditionType));
    WordBack(AsU32(c.id));
    WordBack(AsU32(c.ticks));
    WordBack(c.subId);
    IdBack(c.id);
    I32RoundTrip(c.ticks);
    KnownClass(c);
  }

  lemma {:induction false} KnownClass(c: Record)
    requires Proper(c)
    ensures ClassOf(c.conditionType) != NoClass
  {
  }

  /** A type beyond 32 bits is written as zero, and the factory makes nothing for zero. */
  lemma {:induction false} HeaderLost(c: Record, tail: seq<byte>)
    requires Proper(c) && c.conditionType >= 0x1_0000_0000
    ensures Creation(Header(c) + tail) == NotCreated
  {
    hide PutU32, GetU32, Made, Fits, HeaderTags, Header, ClassOf;
    KnownClass(c);
    LowIsZero(c.conditionType);
    HeaderShape(c, tail);
    WordBack(0);
    ZeroHasNoClass();
  }

  lemma {:induction false} ZeroHasNoClass()
    ensures ClassOf(0) == NoClass
  {
  }

  lemma {:induction false} LowIsZero(t: nat)
    requires ClassOf(t) != NoClass && t >= 0x1_0000_0000
    ensures Low(t) == 0
  {
  }

  /** The class data and the end mark are read to the last byte. */
  lemma {:induction false} RecordRead(c: Record, tail: seq<byte>)
    requires Proper(c)
    ensures Unserialized(Remade(c), Flat(Fields(c.payload)) + ([END] + tail)) == (true, Restored(c), tail)
  {
    hide Fields, Taken, Restored, Remade, Fits, Flat;
    PayloadTaken(c);
    FieldsRead(Remade(c), Fields(c.payload), [END] + tail);
    assert ([END] + tail)[1..] == tail;
  }

  // ---------------------------------------------------------------------------
  // Whole lists
  // ---------------------------------------------------------------------------

  predicate AllProper(rs: seq<Record>) { forall c :: c in rs ==> Proper(c) }

  /** The conditions that survive: the persistent ones before the first persistent one whose type is beyond 32 bits. */
  function Kept(rs: seq<Record>): seq<Record> {
    if rs == [] then []
    else if !Persistent(rs[0]) then Kept(rs[1..])
    else if rs[0].conditionType >= 0x1_0000_0000 then []
    else [rs[0]] + Kept(rs[1..])
  }

  /** Restored, last one first. */
  function Reversed(rs: seq<Record>): seq<Record> { if rs == [] then [] else Reversed(rs[1..]) + [Restored(rs[0])] }

  /** The bytes at which reading stops. */
  function Leftover(s: seq<byte>): seq<byte>
    decreases |s|
  {
    match Creation(s)
    case NotCreated => s
    case Created(r, rest) => UnserializedShrinks(r, rest); Leftover(Unserialized(r, rest).2)
  }

  lemma {:induction false} LoadedFirst(c: Record, tail: seq<byte>)
    requires Proper(c) && c.conditionType < 0x1_0000_0000
    ensures Loaded(Serialized(c) + tail) == Loaded(tail) + [Restored(c)] && Leftover(Serialized(c) + tail) == Leftover(tail)
  {
    var body := Flat(Fields(c.payload));
    assert Serialized(c) + tail == Header(c) + (body + ([END] + tail));
    hide Serialized, Header, Creation, Flat, Fields, Unserialized, Restored, Remade, Fits;
    HeaderRead(c, body + ([END] + tail));
    RecordRead(c, tail);
  }

  lemma {:induction false} LoadedNone(c: Record, tail: seq<byte>)
    requires Proper(c) && c.conditionType >= 0x1_0000_0000
    ensures Loaded(Serialized(c) + tail) == [] && Leftover(Serialized(c) + tail) == Serialized(c) + tail
  {
    var body := Flat(Fields(c.payload));
    assert Serialized(c) + tail == Header(c) + (body + ([END] + tail));
    hide Serialized, Header, Creation, Flat, Fields, Unserialized, Fits;
    HeaderLost(c, body + ([END] + tail));
  }

  /** Reading what was written gives the kept conditions, restored, in reversed order. */
  lemma {:induction false} SavedLoads(rs: seq<Record>)
    requires AllProper(rs)
    ensures Loaded(Saved(rs)) == Reversed(Kept(rs))
  {
    if rs == [] {
      assert Creation([]) == NotCreated;
    } else {
      var c, tail := rs[0], Saved(rs[1..]);
      assert c in rs && AllProper(rs[1..]);
      hide Loaded, Leftover, Serialized, Restored, Fits;
      SavedLoads(rs[1..]);
      if !Persistent(c) {
        assert [] + tail == tail;
      } else if c.conditionType >= 0x1_0000_0000 {
        LoadedNone(c, tail);
      } else {
        LoadedFirst(c, tail);
        assert ([c] + Kept(rs[1..]))[1..] == Kept(rs[1..]);
      }
    }
  }

  predicate Transportable(rs: seq<Record>) { forall c :: c in rs && Persistent(c) ==> c.conditionType < 0x1_0000_0000 }

  function PersistentOnes(rs: seq<Record>): seq<Record> {
    if rs == [] then [] else (if Persistent(rs[0]) then [rs[0]] else []) + PersistentOnes(rs[1..])
  }

  /** Every persistent condition survives, and the stream is read to its end, exactly if every type has 32 bits. */
  lemma {:induction false} AllSurviveIff(rs: seq<Record>)
    requires AllProper(rs)
    ensures Transportable(rs) <==> Loaded(Saved(rs)) == Reversed(PersistentOnes(rs))
    ensures Transportable(rs) <==> Leftover(Saved(rs)) == []
  {
    SavedLoads(rs);
    KeptAll(rs);
    ReversedSize(Kept(rs));
    ReversedSize(PersistentOnes(rs));
    SavedLeaves(rs);
  }

  lemma {:induction false} ReversedSize(rs: seq<Record>)
    ensures |Reversed(rs)| == |rs|
  {
    if rs != [] {
      ReversedSize(rs[1..]);
    }
  }

  lemma {:induction false} KeptAll(rs: seq<Record>)
    ensures |Kept(rs)| <= |PersistentOnes(rs)|
    ensures Transportable(rs) <==> |Kept(rs)| == |PersistentOnes(rs)|
    ensures Transportable(rs) ==> Kept(rs) == PersistentOnes(rs)
  {
    if rs != [] {
      KeptAll(rs[1..]);
      assert rs == [rs[0]] + rs[1..];
      assert Transportable(rs) <==> (Persistent(rs[0]) ==> rs[0].conditionType < 0x1_0000_0000) && Transportable(rs[1..]);
    }
  }

  lemma {:induction false} SavedLeaves(rs: seq<Record>)
    requires AllProper(rs)
    ensures Transportable(rs) <==> Leftover(Saved(rs)) == []
  {
    if rs == [] {
      assert Creation([]) == NotCreated;
    } else {
      var c, tail := rs[0], Saved(rs[1..]);
      assert c in rs && AllProper(rs[1..]);
      assert rs == [c] + rs[1..];
      assert Transportable(rs) <==> (Persistent(c) ==> c.conditionType < 0x1_0000_0000) && Transportable(rs[1..]);
      hide Loaded, Leftover, Restored, Fits, Transportable;
      SavedLeaves(rs[1..]);
      if !Persistent(c) {
        assert [] + tail == tail;
      } else if c.conditionType >= 0x1_0000_0000 {
        LoadedNone(c, tail);
      } else {
        LoadedFirst(c, tail);
      }
    }
  }

  /** A condition is worth saving if it ends some day and comes from no equipment, or if it is a mute. */
  predicate WorthSaving(c: Record) { c.ticks != -1 && (c.id == -1 || c.id == 0 || c.conditionType == 0x1_0000) }

  /** `at` lists exactly the positions of conditions worth saving, in order. */
  ghost predicate Selects(rs: seq<Record>, at: seq<nat>) {
    Ascends(at) && OnlySelected(rs, at) && AllSelected(rs, at)
  }

  ghost predicate Ascends(at: seq<nat>) { forall a, b :: 0 <= a < b < |at| ==> at[a] < at[b] }

  ghost predicate OnlySelected(rs: seq<Record>, at: seq<nat>) {
    forall k :: 0 <= k < |at| ==> at[k] < |rs| && WorthSaving(rs[at[k]])
  }

  ghost predicate AllSelected(rs: seq<Record>, at: seq<nat>) {
    forall i :: 0 <= i < |rs| && WorthSaving(rs[i]) ==> i in at
  }

  lemma {:induction false} Selection(rs: seq<Record>) returns (at: seq<nat>)
    ensures Selects(rs, at) && Picked(rs, at, PersistentOnes(rs))
    decreases |rs|
  {
    hide AllSelected, OnlySelected, Ascends, Picked, WorthSaving, Persistent, Later;
    at := [];
    if rs != [] {
      PersistentIs(rs[0]);
      var rest := rs[1..];
      var later := Selection(rest);
      var at1 := Later(later);
      assert rs == [rs[0]] + rest;
      SelectionShifts(rs[0], rest, later, PersistentOnes(rest));
      if WorthSaving(rs[0]) {
        SelectionPrepends(rs, at1, PersistentOnes(rest));
        AllPrepended(rs, later);
        at := [0] + at1;
      } else {
        AllShifted(rs, later, at1, 0);
        at := at1;
        assert [] + PersistentOnes(rest) == PersistentOnes(rest);
      }
    } else {
      NoneLeftOut();
    }
  }

  /** `ones` are the records at these positions. */
  ghost predicate Picked(rs: seq<Record>, at: seq<nat>, ones: seq<Record>) {
    |ones| == |at| && forall k :: 0 <= k < |at| ==> at[k] < |rs| && ones[k] == rs[at[k]]
  }

  function Later(at: seq<nat>): (r: seq<nat>)
    ensures |r| == |at| && forall k :: 0 <= k < |at| ==> r[k] == at[k] + 1
  {
    seq(|at|, k requires 0 <= k < |at| => at[k] + 1)
  }

  lemma {:induction false} PersistentIs(c: Record)
    ensures Persistent(c) <==> WorthSaving(c)
  {
  }

  lemma {:induction false} SelectionShifts(c: Record, rest: seq<Record>, later: seq<nat>, ones: seq<Record>)
    requires Ascends(later) && OnlySelected(rest, later) && Picked(rest, later, ones)
    ensures Ascends(Later(later)) && OnlySelected([c] + rest, Later(later)) && Picked([c] + rest, Later(later), ones)
  {
    hide WorthSaving;
    var rs, at := [c] + rest, Later(later);
    forall k | 0 <= k < |at|
      ensures at[k] < |rs| && rs[at[k]] == rest[later[k]]
    {
    }
  }

  lemma {:induction false} SelectionPrepends(rs: seq<Record>, at: seq<nat>, ones: seq<Record>)
    requires rs != [] && WorthSaving(rs[0]) && Ascends(at) && OnlySelected(rs, at) && Picked(rs, at, ones)
    requires forall k :: 0 <= k < |at| ==> at[k] > 0
    ensures Ascends([0] + at) && OnlySelected(rs, [0] + at) && Picked(rs, [0] + at, [rs[0]] + ones)
  {
    hide WorthSaving;
  }

  lemma {:induction false} AllPrepended(rs: seq<Record>, later: seq<nat>)
    requires rs != [] && AllSelected(rs[1..], later)
    ensures AllSelected(rs, [0] + Later(later))
  {
    hide WorthSaving, AllSelected;
    var at := [0] + Later(later);
    assert at[0] == 0;
    AllShifted(rs, later, at, 1);
  }

  lemma {:induction false} NoneLeftOut()
    ensures Selects([], []) && Picked([], [], [])
  {
  }

  lemma {:induction false} AllShifted(rs: seq<Record>, later: seq<nat>, at: seq<nat>, n: nat)
    requires rs != [] && AllSelected(rs[1..], later) && |at| == |later| + n
    requires forall k :: 0 <= k < |later| ==> at[k + n] == later[k] + 1
    requires WorthSaving(rs[0]) ==> 0 in at
    ensures AllSelected(rs, at)
  {
    hide WorthSaving;
    forall i | 0 <= i < |rs| && WorthSaving(rs[i])
      ensures i in at
    {
      if i > 0 {
        assert rs[1..][i - 1] == rs[i];
        var k :| 0 <= k < |later| && later[k] == i - 1;
        assert at[k + n] == i;
      }
    }
  }

  lemma {:induction false} ReversedAt(rs: seq<Record>, k: nat)
    requires k < |rs|
    ensures |Reversed(rs)| == |rs| && Reversed(rs)[k] == Restored(rs[|rs| - 1 - k])
  {
    hide Restored;
    ReversedSize(rs[1..]);
    if k < |rs| - 1 {
      ReversedAt(rs[1..], k);
    }
  }

  /**
    Who comes back: with types of 32 bits exactly the conditions worth saving, the last one first, each as it is restored.
   */
  lemma {:induction false} WhoComesBack(rs: seq<Record>) returns (at: seq<nat>)
    requires AllProper(rs) && forall c :: c in rs ==> c.conditionType < 0x1_0000_0000
    ensures Selects(rs, at)
    ensures var back := Loaded(Saved(rs));
            |back| == |at| && forall k :: 0 <= k < |at| ==> back[k] == Restored(rs[at[|at| - 1 - k]])
  {
    hide Loaded, Saved, Restored, Reversed, PersistentOnes, Proper, Persistent, Leftover, Selects;
    AllSurviveIff(rs);
    at := Selection(rs);
    var ones := PersistentOnes(rs);
    ReversedSize(ones);
    forall k | 0 <= k < |at|
      ensures Reversed(ones)[k] == Restored(rs[at[|at| - 1 - k]])
    {
      ReversedAt(ones, k);
    }
  }

  /** What a restored condition has in common with the saved one. */
  lemma {:induction false} RestoredKeeps(c: Record)
    ensures Restored(c).conditionType == c.conditionType && Restored(c).id == c.id && Restored(c).payload == c.payload
    ensures !c.payload.Damage? ==> Restored(c).ticks == c.ticks
    ensures c.payload.Damage? ==>
              var s := c.payload.intervals;
              Restored(c).ticks == if Sticks(s) then -1 else Signed(TotalTicks(s))
    ensures Restored(c).isBuff == c.isBuff && Restored(c).subId == c.subId && Restored(c).aggressive == c.aggressive
            <==> !c.isBuff && c.subId == 0 && !c.aggressive
  {
    if c.payload.Damage? {
      TicksAreTotal(c.payload.intervals);
    }
  }

  function TotalTicks(s: seq<Interval>): int {
    if s == [] then 0 else TotalTicks(s[..|s| - 1]) + s[|s| - 1].interval
  }

  /** Some sum before the last interval is -1, and ticks of -1 are not added to. */
  predicate Sticks(s: seq<Interval>) {
    s != [] && (Sticks(s[..|s| - 1]) || Signed(TotalTicks(s[..|s| - 1])) == -1)
  }

  lemma {:induction false} SignedAdds(a: int, b: i32)
    ensures AddI32(Signed(a), b) == Signed(a + b)
  {
    var k := a / 0x1_0000_0000;
    assert a == k * 0x1_0000_0000 + a % 0x1_0000_0000;
  }

  lemma {:induction false} TicksAreTotal(s: seq<Interval>)
    ensures TicksAfter(0, s) == if Sticks(s) then -1 else Signed(TotalTicks(s))
  {
    hide Signed, AddI32;
    if s == [] {
      NothingSigned();
    } else {
      TicksAreTotal(s[..|s| - 1]);
      SignedAdds(TotalTicks(s[..|s| - 1]), s[|s| - 1].interval);
    }
  }

  lemma {:induction false} NothingSigned()
    ensures Signed(0) == 0
  {
  }

  // ---------------------------------------------------------------------------
  // The methods
  // ---------------------------------------------------------------------------

  /** One attribute: unchanged and refused if unknown or incomplete. */
  function PropRead(r: Record, tag: u8, s: seq<byte>): (bool, Record, seq<byte>) {
    var w := Width(r, tag);
    if w < 0 || |s| < w then (false, r, s) else (true, Store(r, tag, s[..w]), s[w..])
  }

  lemma {:induction false} PropUnfolds(r: Record, s: seq<byte>)
    requires s != [] && s[0] != END
    ensures var (ok, q, rest) := PropRead(r, s[0], s[1..]);
            Unserialized(r, s) == if ok then Unserialized(q, rest) else (false, r, s[1..])
  {
    var w := Width(r, s[0]);
    if 0 <= w <= |s| - 1 {
      assert s[1..][..w] == s[1..w + 1] && s[1..][w..] == s[w + 1..];
    }
    hide Width, Store;
  }

  class Condition {
    var conditionType: nat
    var id: i8
    var ticks: i32
    var isBuff: bool
    var subId: u32
    var aggressive: bool
    var lastEffTicks: int
    var payload: Payload
    var currentSkill: nat
    var currentStat: nat

    function Value(): Record
      reads this
    {
      Record(conditionType, id, ticks, isBuff, subId, aggressive, lastEffTicks, payload, currentSkill, currentStat)
    }

    constructor (t: nat, id: i8, ticks: i32, buff: bool, subId: u32, aggressive: bool)
      ensures Value() == Made(t, id, ticks, buff, subId, aggressive)
    {
      conditionType, this.id, this.ticks := t, id, if ClassOf(t) == DamageClass then 0 else ticks;
      lastEffTicks := if IsBonus(t) then 0 else Bool(buff) as int;
      isBuff, this.subId, this.aggressive := subId != 0, Bool(aggressive), false;
      payload, currentSkill, currentStat := Blank(ClassOf(t)), 0, 0;
    }

    // -------------------------------------------------------------------------
    // Reading
    // -------------------------------------------------------------------------

    /** The attributes that every condition has. */
    method CommonProp(attr: u8, stream: PropStream) returns (ok: bool)
      requires stream.Valid() && OwnWidth(Value(), attr) < 0
      modifies this, stream
      ensures stream.Valid() && (ok, Value(), stream.Rest()) == PropRead(old(Value()), attr, old(stream.Rest()))
    {
      hide OwnWidth, StoreOwn, Unserialized, GetU32;
      ok := false;
      if attr == TYPE {
        var v;
        ok, v := stream.ReadI32();
        if ok {
          conditionType := AsU64(v);
        }
      } else if attr == ID {
        var v;
        ok, v := stream.ReadI32();
        if ok {
          id := ToI8(v);
        }
      } else if attr == TICKS {
        var v;
        ok, v := stream.ReadI32();
        if ok {
          ticks := v;
        }
      } else if attr == ISBUFF {
        var v;
        ok, v := stream.ReadU8();
        if ok {
          isBuff := v != 0;
        }
      } else if attr == SUBID {
        var v;
        ok, v := stream.ReadU32();
        if ok {
          subId := v;
        }
      } else if attr == ISAGGRESSIVE {
        var v;
        ok, v := stream.ReadU8();
        if ok {
          aggressive := v != 0;
        }
      }
    }

    method DamageProp(attr: u8, stream: PropStream) returns (ok: bool)
      requires stream.Valid() && payload.Damage?
      modifies this, stream
      ensures stream.Valid() && (ok, Value(), stream.Rest()) == PropRead(old(Value()), attr, old(stream.Rest()))
    {
      hide CommonWidth, StoreCommon, Unserialized, GetU32;
      if attr == DELAYED {
        var v;
        ok, v := stream.ReadU8();
        if ok {
          payload := payload.(delayed := v != 0);
        }
      } else if attr == PERIODDAMAGE {
        var v;
        ok, v := stream.ReadI32();
        if ok {
          payload := payload.(periodDamage := v);
        }
      } else if attr == OWNER {
        ok := stream.Skip(4);
      } else if attr == INTERVALDATA {
        var d;
        ok, d := stream.Take(12);
        if ok {
          var info := GetInterval(d);
          payload := payload.(intervals := payload.intervals + [info]);
          if ticks != -1 {
            ticks := AddI32(ticks, info.interval);
          }
        }
      } else {
        ok := CommonProp(attr, stream);
      }
    }

    method SpeedProp(attr: u8, stream: PropStream) returns (ok: bool)
      requires stream.Valid() && payload.Speed?
      modifies this, stream
      ensures stream.Valid() && (ok, Value(), stream.Rest()) == PropRead(old(Value()), attr, old(stream.Rest()))
    {
      hide CommonWidth, StoreCommon, Unserialized, GetU32;
      if attr == SPEEDDELTA {
        var v;
        ok, v := stream.ReadI32();
        if ok {
          payload := payload.(delta := v);
        }
      } else if FORMULA_MINA <= attr <= FORMULA_MAXB {
        var v;
        ok, v := stream.ReadU32();
        if ok {
          payload := if attr == FORMULA_MINA then payload.(mina := v)
          else if attr == FORMULA_MINB then payload.(minb := v)
          else if attr == FORMULA_MAXA then payload.(maxa := v)
          else payload.(maxb := v);
        }
      } else {
        ok := CommonProp(attr, stream);
      }
    }

    method OutfitProp(attr: u8, stream: PropStream) returns (ok: bool)
      requires stream.Valid() && payload.Outfit?
      modifies this, stream
      ensures stream.Valid() && (ok, Value(), stream.Rest()) == PropRead(old(Value()), attr, old(stream.Rest()))
    {
      hide CommonWidth, StoreCommon, Unserialized, GetU32;
      if attr == OUTFIT {
        var d;
        ok, d := stream.Take(OUTFIT_SIZE);
        if ok {
          payload := Outfit(d);
        }
      } else {
        ok := CommonProp(attr, stream);
      }
    }

    method LightProp(attr: u8, stream: PropStream) returns (ok: bool)
      requires stream.Valid() && payload.Light?
      modifies this, stream
      ensures stream.Valid() && (ok, Value(), stream.Rest()) == PropRead(old(Value()), attr, old(stream.Rest()))
    {
      hide CommonWidth, StoreCommon, Unserialized, GetU32;
      if LIGHTCOLOR <= attr <= LIGHTINTERVAL {
        var v;
        ok, v := stream.ReadU32();
        if ok {
          payload := if attr == LIGHTCOLOR then payload.(color := v % 256)
          else if attr == LIGHTLEVEL then payload.(level := v % 256)
          else if attr == LIGHTTICKS then payload.(lightTicks := v)
          else payload.(lightInterval := v);
        }
      } else {
        ok := CommonProp(attr, stream);
      }
    }

    method RegenerationProp(attr: u8, stream: PropStream) returns (ok: bool)
      requires stream.Valid() && payload.Regeneration?
      modifies this, stream
      ensures stream.Valid() && (ok, Value(), stream.Rest()) == PropRead(old(Value()), attr, old(stream.Rest()))
    {
      hide CommonWidth, StoreCommon, Unserialized, GetU32;
      if HEALTHTICKS <= attr <= MANAGAIN {
        var v;
        ok, v := stream.ReadU32();
        if ok {
          payload := if attr == HEALTHTICKS then payload.(healthTicks := v)
          else if attr == HEALTHGAIN then payload.(healthGain := v)
          else if attr == MANATICKS then payload.(manaTicks := v)
          else payload.(manaGain := v);
        }
      } else {
        ok := CommonProp(attr, stream);
      }
    }

    method SoulProp(attr: u8, stream: PropStream) returns (ok: bool)
      requires stream.Valid() && payload.Soul?
      modifies this, stream
      ensures stream.Valid() && (ok, Value(), stream.Rest()) == PropRead(old(Value()), attr, old(stream.Rest()))
    {
      hide CommonWidth, StoreCommon, Unserialized, GetU32;
      if attr == SOULGAIN || attr == SOULTICKS {
        var v;
        ok, v := stream.ReadU32();
        if ok {
          payload := if attr == SOULGAIN then payload.(soulGain := v) else payload.(soulTicks := v);
        }
      } else {
        ok := CommonProp(attr, stream);
      }
    }

    method AttributesProp(attr: u8, stream: PropStream) returns (ok: bool)
      requires stream.Valid() && payload.Attributes?
      modifies this, stream
      ensures stream.Valid() && (ok, Value(), stream.Rest()) == PropRead(old(Value()), attr, old(stream.Rest()))
    {
      hide CommonWidth, StoreCommon, Unserialized, GetU32;
      if attr == SKILLS && currentSkill < |payload.skills| {
        var v;
        ok, v := stream.ReadI32();
        if ok {
          payload := payload.(skills := payload.skills[currentSkill := v]);
          currentSkill := currentSkill + 1;
        }
      } else if attr == STATS && currentStat < |payload.stats| {
        var v;
        ok, v := stream.ReadI32();
        if ok {
          payload := payload.(stats := payload.stats[currentStat := v]);
          currentStat := currentStat + 1;
        }
      } else if attr == DISABLEDEFENSE {
        var v;
        ok, v := stream.ReadU8();
        if ok {
          payload := payload.(disableDefense := v != 0);
        }
      } else {
        ok := CommonProp(attr, stream);
      }
    }

    /** Reads one attribute in the way of the condition's class. */
    method UnserializeProp(attr: u8, stream: PropStream) returns (ok: bool)
      requires stream.Valid()
      modifies this, stream
      ensures stream.Valid() && (ok, Value(), stream.Rest()) == PropRead(old(Value()), attr, old(stream.Rest()))
    {
      hide PropRead;
      match payload
      case Plain => ok := CommonProp(attr, stream);
      case Damage(_, _, _) => ok := DamageProp(attr, stream);
      case Speed(_, _, _, _, _) => ok := SpeedProp(attr, stream);
      case Outfit(_) => ok := OutfitProp(attr, stream);
      case Light(_, _, _, _) => ok := LightProp(attr, stream);
      case Regeneration(_, _, _, _) => ok := RegenerationProp(attr, stream);
      case Soul(_, _) => ok := SoulProp(attr, stream);
      case Attributes(_, _, _) => ok := AttributesProp(attr, stream);
    }

    /** Reads attributes until the end mark. */
    method Unserialize(stream: PropStream) returns (ok: bool)
      requires stream.Valid()
      modifies this, stream
      ensures stream.Valid()
      ensures ok == Unserialized(old(Value()), old(stream.Rest())).0
      ensures stream.Rest() == Unserialized(old(Value()), old(stream.Rest())).2
      ensures ok ==> Value() == Unserialized(old(Value()), old(stream.Rest())).1
    {
      hide PropRead, Width, Store;
      ghost var goal := Unserialized(Value(), stream.Rest());
      while true
        invariant stream.Valid() && Unserialized(Value(), stream.Rest()) == goal
        decreases |stream.Rest()|
      {
        ghost var r, s := Value(), stream.Rest();
        var attr;
        ok, attr := stream.ReadU8();
        if !ok || attr == END {
          return true;
        }
        PropUnfolds(r, s);
        PropShrinks(r, attr, s[1..]);
        ok := UnserializeProp(attr, stream);
        if !ok {
          return;
        }
      }
    }

    // -------------------------------------------------------------------------
    // Writing
    // -------------------------------------------------------------------------

    method SerializeCommon(stream: PropWriteStream)
      modifies stream
      ensures stream.buffer == old(stream.buffer) + Header(Value())
    {
      hide PutU32;
      ghost var start := stream.buffer;
      ghost var a, b, c, d := PutU32(Low(conditionType)), PutU32(AsU32(id)), PutU32(AsU32(ticks)), PutU32(subId);
      WriteTagged(TYPE, Low(conditionType), stream);
      WriteTagged(ID, AsU32(id), stream);
      WriteTagged(TICKS, AsU32(ticks), stream);
      WriteFlag(ISBUFF, Bool(isBuff), stream);
      WriteTagged(SUBID, subId, stream);
      WriteFlag(ISAGGRESSIVE, Bool(aggressive), stream);
      HeaderJoins(start, a, b, c, [ISBUFF, Bool(isBuff)], d, [ISAGGRESSIVE, Bool(aggressive)]);
    }

    method WriteTagged(tag: u8, v: u32, stream: PropWriteStream)
      modifies stream
      ensures stream.buffer == old(stream.buffer) + ([tag] + PutU32(v))
    {
      hide PutU32;
      stream.WriteU8(tag);
      stream.WriteU32(v);
    }

    method WriteFlag(tag: u8, v: u8, stream: PropWriteStream)
      modifies stream
      ensures stream.buffer == old(stream.buffer) + [tag, v]
    {
      stream.WriteU8(tag);
      stream.WriteU8(v);
    }

    /** Writes a tag and four bytes. */
    method WriteWord(tag: u8, v: u32, stream: PropWriteStream, ghost start: seq<byte>, ghost fs: seq<Field>)
      requires stream.buffer == start + Flat(fs)
      modifies stream
      ensures stream.buffer == start + Flat(fs + [Field(tag, PutU32(v))])
    {
      hide PutU32, Flat;
      FlatMore(fs, Field(tag, PutU32(v)));
      stream.WriteU8(tag);
      stream.WriteU32(v);
      assert start + Flat(fs) + [tag] + PutU32(v) == start + (Flat(fs) + [tag] + PutU32(v));
    }

    /** Writes a tag and raw bytes. */
    method WriteData(tag: u8, d: seq<byte>, stream: PropWriteStream, ghost start: seq<byte>, ghost fs: seq<Field>)
      requires stream.buffer == start + Flat(fs)
      modifies stream
      ensures stream.buffer == start + Flat(fs + [Field(tag, d)])
    {
      hide Flat;
      FlatMore(fs, Field(tag, d));
      stream.WriteU8(tag);
      stream.WriteBytes(d);
      assert start + Flat(fs) + [tag] + d == start + (Flat(fs) + [tag] + d);
    }

    method SerializeDamage(stream: PropWriteStream)
      requires payload.Damage?
      modifies stream
      ensures stream.buffer == old(stream.buffer) + Flat(Fields(payload))
    {
      hide Flat, IntervalBytes, PutU32;
      ghost var start := stream.buffer;
      FlatNone(start);
      WriteData(DELAYED, [Bool(payload.delayed)], stream, start, []);
      ghost var a, b := Field(DELAYED, [Bool(payload.delayed)]), Field(PERIODDAMAGE, Int(payload.periodDamage));
      assert [] + [a] == [a] && [a] + [b] == [a, b] && [a, b] + [] == [a, b];
      WriteWord(PERIODDAMAGE, AsU32(payload.periodDamage), stream, start, [a]);
      var i := 0;
      var list := payload.intervals;
      assert list[..0] == [] && IntervalFields([]) == [];
      while i < |list|
        invariant i <= |list| && stream.buffer == start + Flat([a, b] + IntervalFields(list[..i]))
      {
        LastInterval(list[..i + 1]);
        assert list[..i + 1][..i] == list[..i];
        ghost var fs := [a, b] + IntervalFields(list[..i]);
        WriteData(INTERVALDATA, IntervalBytes(list[i]), stream, start, fs);
        ghost var f := Field(INTERVALDATA, IntervalBytes(list[i]));
        assert fs + [f] == [a, b] + (IntervalFields(list[..i]) + [f]);
        i := i + 1;
      }
      assert list[..|list|] == list;
    }

    method SerializeNumbers(tag: u8, list: seq<i32>, stream: PropWriteStream, ghost start: seq<byte>, ghost fs: seq<Field>)
      requires stream.buffer == start + Flat(fs)
      modifies stream
      ensures stream.buffer == start + Flat(fs + NumberFields(tag, list))
    {
      hide Flat, PutU32;
      var i := 0;
      assert list[..0] == [] && fs + NumberFields(tag, []) == fs;
      while i < |list|
        invariant i <= |list| && stream.buffer == start + Flat(fs + NumberFields(tag, list[..i]))
      {
        assert list[..i + 1][..i] == list[..i];
        ghost var f, gs := Field(tag, Int(list[i])), fs + NumberFields(tag, list[..i]);
        WriteWord(tag, AsU32(list[i]), stream, start, gs);
        assert gs + [f] == fs + (NumberFields(tag, list[..i]) + [f]);
        i := i + 1;
      }
      assert list[..|list|] == list;
    }

    method SerializeSpeed(stream: PropWriteStream)
      requires payload.Speed?
      modifies stream
      ensures stream.buffer == old(stream.buffer) + Flat(Fields(payload))
    {
      hide Flat, PutU32;
      ghost var start, fs := stream.buffer, Fields(payload);
      FlatNone(start);
      FirstFields(fs);
      WriteWord(SPEEDDELTA, AsU32(payload.delta), stream, start, []);
      WriteWord(FORMULA_MINA, payload.mina, stream, start, fs[..1]);
      WriteWord(FORMULA_MINB, payload.minb, stream, start, fs[..2]);
      WriteWord(FORMULA_MAXA, payload.maxa, stream, start, fs[..3]);
      WriteWord(FORMULA_MAXB, payload.maxb, stream, start, fs[..4]);
    }

    method SerializeLight(stream: PropWriteStream)
      requires payload.Light?
      modifies stream
      ensures stream.buffer == old(stream.buffer) + Flat(Fields(payload))
    {
      hide Flat, PutU32;
      ghost var start, fs := stream.buffer, Fields(payload);
      FlatNone(start);
      FirstFields(fs);
      WriteWord(LIGHTCOLOR, payload.color as int, stream, start, []);
      WriteWord(LIGHTLEVEL, payload.level as int, stream, start, fs[..1]);
      WriteWord(LIGHTTICKS, payload.lightTicks, stream, start, fs[..2]);
      WriteWord(LIGHTINTERVAL, payload.lightInterval, stream, start, fs[..3]);
    }

    method SerializeRegeneration(stream: PropWriteStream)
      requires payload.Regeneration?
      modifies stream
      ensures stream.buffer == old(stream.buffer) + Flat(Fields(payload))
    {
      hide Flat, PutU32;
      ghost var start, fs := stream.buffer, Fields(payload);
      FlatNone(start);
      FirstFields(fs);
      WriteWord(HEALTHTICKS, payload.healthTicks, stream, start, []);
      WriteWord(HEALTHGAIN, payload.healthGain, stream, start, fs[..1]);
      WriteWord(MANATICKS, payload.manaTicks, stream, start, fs[..2]);
      WriteWord(MANAGAIN, payload.manaGain, stream, start, fs[..3]);
    }

    method SerializeSoul(stream: PropWriteStream)
      requires payload.Soul?
      modifies stream
      ensures stream.buffer == old(stream.buffer) + Flat(Fields(payload))
    {
      hide Flat, PutU32;
      ghost var start, fs := stream.buffer, Fields(payload);
      FlatNone(start);
      FirstFields(fs);
      WriteWord(SOULGAIN, payload.soulGain, stream, start, []);
      WriteWord(SOULTICKS, payload.soulTicks, stream, start, fs[..1]);
    }

    method SerializeAttributes(stream: PropWriteStream)
      requires payload.Attributes?
      modifies stream
      ensures stream.buffer == old(stream.buffer) + Flat(Fields(payload))
    {
      hide Flat, PutU32, NumberFields;
      ghost var start, a, b := stream.buffer, NumberFields(SKILLS, payload.skills), NumberFields(STATS, payload.stats);
      FlatNone(start);
      SerializeNumbers(SKILLS, payload.skills, stream, start, []);
      assert [] + a == a;
      SerializeNumbers(STATS, payload.stats, stream, start, a);
      WriteData(DISABLEDEFENSE, [Bool(payload.disableDefense)], stream, start, a + b);
    }

    /** Writes the common part, then what the condition's class adds. */
    method Serialize(stream: PropWriteStream)
      modifies stream
      ensures stream.buffer == old(stream.buffer) + (Header(Value()) + Flat(Fields(payload)))
    {
      hide Header, Flat, Fields;
      ghost var start := stream.buffer;
      FlatNone(start + Header(Value()));
      OneOrNoField(payload);
      SerializeCommon(stream);
      match payload
      case Plain => {}
      case Damage(_, _, _) => SerializeDamage(stream);
      case Speed(_, _, _, _, _) => SerializeSpeed(stream);
      case Outfit(look) =>
        WriteData(OUTFIT, look, stream, start + Header(Value()), []);
      case Light(_, _, _, _) => SerializeLight(stream);
      case Regeneration(_, _, _, _) => SerializeRegeneration(stream);
      case Soul(_, _) => SerializeSoul(stream);
      case Attributes(_, _, _) => SerializeAttributes(stream);
      assert stream.buffer == start + Header(Value()) + Flat(Fields(payload));
    }
  }

  lemma {:induction false} OneOrNoField(p: Payload)
    ensures p.Plain? ==> Fields(p) == []
    ensures p.Outfit? ==> Fields(p) == [] + [Field(OUTFIT, p.look)]
  {
  }

  lemma {:induction false} HeaderJoins(start: seq<byte>, a: seq<byte>, b: seq<byte>, c: seq<byte>, x: seq<byte>, d: seq<byte>, y: seq<byte>)
    ensures start + ([TYPE] + a) + ([ID] + b) + ([TICKS] + c) + x + ([SUBID] + d) + y ==
            start + ([TYPE] + a + [ID] + b + [TICKS] + c + x + [SUBID] + d + y)
  {
  }

  lemma {:induction false} FlatNone(start: seq<byte>)
    ensures start == start + Flat([])
  {
  }

  lemma {:induction false} FlatMore(fs: seq<Field>, f: Field)
    ensures Flat(fs + [f]) == Flat(fs) + [f.tag] + f.data
  {
    assert (fs + [f])[..|fs|] == fs;
  }

  /** A list field by field. */
  lemma {:induction false} FirstFields(fs: seq<Field>)
    requires |fs| >= 1
    ensures [] + [fs[0]] == fs[..1] && fs[..|fs|] == fs
    ensures forall i :: 0 <= i < |fs| ==> fs[..i] + [fs[i]] == fs[..i + 1]
  {
  }

  lemma {:induction false} PropShrinks(r: Record, tag: u8, s: seq<byte>)
    ensures |PropRead(r, tag, s).2| <= |s| && (!PropRead(r, tag, s).0 ==> PropRead(r, tag, s) == (false, r, s))
  {
    hide Width, Store;
  }

  /** Reads a tag and four bytes; `s` is the stream from the start and `n` what has been read of it. */
  method ReadWord(tag: u8, stream: PropStream, ghost s: seq<byte>, ghost n: nat) returns (ok: bool, v: u32)
    requires stream.Valid() && n <= |s| && stream.Rest() == s[n..]
    modifies stream
    ensures stream.Valid() && (ok <==> |s| >= n + 5 && s[n] == tag)
    ensures ok ==> v == GetU32(s[n + 1..n + 5]) && stream.Rest() == s[n + 5..]
    ensures |stream.Rest()| <= |s| - n
  {
    hide GetU32;
    var attr;
    v := 0;
    ok, attr := stream.ReadU8();
    if !ok || attr != tag {
      return false, 0;
    }
    assert stream.Rest() == s[n + 1..];
    ok, v := stream.ReadU32();
    if ok {
      assert s[n + 1..][..4] == s[n + 1..n + 5] && s[n + 1..][4..] == s[n + 5..];
    }
  }

  /** Reads a tag and a byte. */
  method ReadFlag(tag: u8, stream: PropStream, ghost s: seq<byte>, ghost n: nat) returns (ok: bool, v: u8)
    requires stream.Valid() && n <= |s| && stream.Rest() == s[n..]
    modifies stream
    ensures stream.Valid() && (ok <==> |s| >= n + 2 && s[n] == tag)
    ensures ok ==> v == s[n + 1] && stream.Rest() == s[n + 2..]
    ensures |stream.Rest()| <= |s| - n
  {
    var attr;
    v := 0;
    ok, attr := stream.ReadU8();
    if !ok || attr != tag {
      return false, 0;
    }
    assert stream.Rest() == s[n + 1..];
    ok, v := stream.ReadU8();
  }

  /** Reads a common part and makes the condition it stands for. */
  method CreateCondition(stream: PropStream) returns (c: Condition?)
    requires stream.Valid()
    modifies stream
    ensures stream.Valid() && (c == null <==> Creation(old(stream.Rest())) == NotCreated)
    ensures c != null ==> fresh(c) && Creation(old(stream.Rest())) == Created(c.Value(), stream.Rest())
    ensures |stream.Rest()| <= |old(stream.Rest())|
  {
    hide GetU32, Made, ClassOf;
    ghost var s := stream.Rest();
    c := null;
    var ok, t := ReadWord(TYPE, stream, s, 0);
    if !ok { return; }
    var id;
    ok, id := ReadWord(ID, stream, s, 5);
    if !ok { return; }
    var ticks;
    ok, ticks := ReadWord(TICKS, stream, s, 10);
    if !ok { return; }
    var buff;
    ok, buff := ReadFlag(ISBUFF, stream, s, 15);
    if !ok { return; }
    var subId;
    ok, subId := ReadWord(SUBID, stream, s, 17);
    if !ok { return; }
    var aggressive;
    ok, aggressive := ReadFlag(ISAGGRESSIVE, stream, s, 22);
    if !ok || ClassOf(t) == NoClass { return; }
    c := new Condition(t, ToI8(id), AsI32(ticks), buff != 0, subId, aggressive != 0);
  }

  function Values(cs: seq<Condition>): seq<Record>
    reads cs
  {
    seq(|cs|, i requires 0 <= i < |cs| reads cs => cs[i].Value())
  }

  /** Writes the persistent conditions of a player, each with an end mark. */
  method SaveConditions(cs: seq<Condition>, stream: PropWriteStream)
    modifies stream
    ensures stream.buffer == old(stream.buffer) + Saved(Values(cs))
  {
    hide Header, Flat, Fields, Persistent;
    ghost var start, rs := stream.buffer, Values(cs);
    var i := 0;
    SavedMore(rs, 0);
    while i < |cs|
      invariant i <= |cs| && Values(cs) == rs && stream.buffer == start + Saved(rs[..i])
    {
      SavedMore(rs, i);
      var c := cs[i];
      if Persistent(c.Value()) {
        c.Serialize(stream);
        stream.WriteU8(END);
      }
      i := i + 1;
    }
    assert rs[..|rs|] == rs;
  }

  lemma {:induction false} SavedMore(rs: seq<Record>, i: nat)
    ensures Saved([]) == []
    ensures i < |rs| ==> Saved(rs[..i + 1]) == Saved(rs[..i]) + if Persistent(rs[i]) then Serialized(rs[i]) else []
  {
    hide Serialized, Persistent;
    if i < |rs| {
      SavedSplit(rs[..i], [rs[i]]);
      assert rs[..i] + [rs[i]] == rs[..i + 1];
      assert [rs[i]][1..] == [];
    }
  }

  lemma {:induction false} SavedSplit(a: seq<Record>, b: seq<Record>)
    ensures Saved(a + b) == Saved(a) + Saved(b)
  {
    hide Serialized, Persistent;
    if a == [] {
      assert a + b == b;
    } else {
      assert (a + b)[1..] == a[1..] + b;
      SavedSplit(a[1..], b);
    }
  }

  lemma {:induction false} ValuesFirst(c: Condition, cs: seq<Condition>)
    ensures Values([c] + cs) == [c.Value()] + Values(cs)
  {
  }

  lemma {:induction false} LoadedUnfolds(s: seq<byte>)
    ensures Creation(s) == NotCreated ==> Loaded(s) == []
    ensures Creation(s).Created? ==>
              var (ok, read, after) := Unserialized(Creation(s).r, Creation(s).rest);
              && Loaded(s) == (Loaded(after) + if ok then [read] else [])
              && Leftover(s) == Leftover(after) && |after| < |s|
    ensures Creation(s) == NotCreated ==> Leftover(s) == s
  {
    hide Unserialized, Creation;
    CreationShrinks(s);
    if Creation(s).Created? {
      UnserializedShrinks(Creation(s).r, Creation(s).rest);
    }
  }

  /** Reads all conditions of a player, each in front of those read before, until no more can be made. */
  method LoadConditions(stream: PropStream) returns (stored: seq<Condition>)
    requires stream.Valid()
    modifies stream
    ensures stream.Valid() && Values(stored) == Loaded(old(stream.Rest()))
    ensures |stream.Rest()| <= |Leftover(old(stream.Rest()))|
  {
    hide Creation, Unserialized, Loaded, Leftover, Values;
    ghost var s := stream.Rest();
    ghost var goal, left := Loaded(s), Leftover(s);
    stored := [];
    ValuesNone();
    var c := CreateCondition(stream);
    while c != null
      invariant stream.Valid() && (forall k :: 0 <= k < |stored| ==> fresh(stored[k]) && stored[k] != c)
      invariant c == null <==> Creation(s) == NotCreated
      invariant c != null ==> fresh(c) && Creation(s) == Created(c.Value(), stream.Rest())
      invariant goal == Loaded(s) + Values(stored) && left == Leftover(s) && |stream.Rest()| <= |s|
      decreases |s|
    {
      LoadedUnfolds(s);
      ghost var before := Values(stored);
      var ok := c.Unserialize(stream);
      assert Values(stored) == before;
      if ok {
        ValuesFirst(c, stored);
        stored := [c] + stored;
      }
      s := stream.Rest();
      c := CreateCondition(stream);
    }
    LoadedUnfolds(s);
  }

  lemma {:induction false} ValuesNone()
    ensures Values([]) == []
  {
  }

  lemma {:induction false} CreationShrinks(s: seq<byte>)
    ensures Creation(s).Created? ==> |Creation(s).rest| < |s|
  {
  }
}
