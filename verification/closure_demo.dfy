/**
 * The closure demonstrations of `ClosureDemo`: a bounds-checked weekday lookup
 * captured in five ways, a constant sequence supplier, and partial application
 * of a two-argument function.
 */
module ClosureDemo {
  import opened JavaInt

  /** A possibly absent value; `None` stands for the `null` the Java code returns. */
  datatype Option<T> = None | Some(value: T)

  // ---------------------------------------------------------------------------
  // The weekday lookup rule
  // ---------------------------------------------------------------------------

  /** The Monday-first table every demonstration but the Arab one uses. */
  const DefaultWeeks: seq<string> := ["Mon", "Tue", "Wed", "Thu", "Fri", "Sat", "Sun"]

  /** The Friday-first table of the Arab week. */
  const ArabWeeks: seq<string> := ["Fri", "Sat", "Sun", "Mon", "Tue", "Wed", "Thu"]

  /**
   * The 1-based lookup shared by every converter: entry `num` of the table when
   * `num` names a position in it, no text otherwise. The table is never indexed
   * outside its bounds.
   */
  function WeekdayText(weeks: seq<string>, num: int): (r: Option<string>)
    ensures r.Some? <==> 0 < num <= |weeks|
    ensures r.Some? ==> r.value in weeks && r.value == weeks[num - 1]
  {
    if num > 0 && num <= |weeks| then Some(weeks[num - 1]) else None
  }

  /**
   * An independent reading of "the num-th day": walk down the table, one day
   * per step, until the counter reaches 1.
   */
  function NthDay(weeks: seq<string>, num: int): Option<string>
    decreases |weeks|
  {
    if num <= 0 || weeks == [] then None
    else if num == 1 then Some(weeks[0])
    else NthDay(weeks[1..], num - 1)
  }

  /** The lookup rule picks the same entry as walking the table day by day. */
  lemma {:induction false} WeekdayTextIsNthDay(weeks: seq<string>, num: int)
    ensures WeekdayText(weeks, num) == NthDay(weeks, num)
    decreases |weeks|
  {
    if num > 1 && weeks != [] {
      WeekdayTextIsNthDay(weeks[1..], num - 1);
      if num <= |weeks| {
        assert weeks[1..][num - 2] == weeks[num - 1];
      }
    }
  }

  // ---------------------------------------------------------------------------
  // Five ways of capturing the table
  // ---------------------------------------------------------------------------

  /** Type 1: an anonymous object whose field holds the table; `Convert` reads that field. */
  datatype AnonymousConverter = AnonymousConverter(weeks: seq<string>) {
    function Convert(num: int): (r: Option<string>)
      ensures 0 < num <= |weeks| ==> r == Some(weeks[num - 1])
      ensures (num <= 0 || |weeks| < num) ==> r == None
    {
      WeekdayText(weeks, num)
    }
  }

  /** Type 1: the converter object with the Monday-first table in its field. */
  function ClosureType1(): (convert: int -> Option<string>)
    ensures forall num :: 0 < num <= 7 ==> convert(num) == Some(DefaultWeeks[num - 1])
    ensures forall num :: (num <= 0 || 7 < num) ==> convert(num) == None
  {
    AnonymousConverter(DefaultWeeks).Convert
  }

  /**
   * Types 2 and 3: a lambda that builds the table inside its own body on every
   * call (Type 2 behind a custom interface, Type 3 behind `Function<Integer, String>`).
   */
  function ClosureType2(): (convert: int -> Option<string>)
    ensures forall num :: 0 < num <= 7 ==> convert(num) == Some(DefaultWeeks[num - 1])
    ensures forall num :: (num <= 0 || 7 < num) ==> convert(num) == None
  {
    num => var weeks := DefaultWeeks; WeekdayText(weeks, num)
  }

  /**
   * Type 4: the table is a local of the enclosing function and the returned
   * lambda encloses it.
   */
  function GetTextOfWeekday(): (convert: int -> Option<string>)
    ensures forall num :: 0 < num <= 7 ==> convert(num) == Some(DefaultWeeks[num - 1])
    ensures forall num :: (num <= 0 || 7 < num) ==> convert(num) == None
  {
    var weeks := DefaultWeeks;
    num => WeekdayText(weeks, num)
  }

  /** Type 5: the enclosed table is the one the caller passes in. */
  function GetTextOfWeekdayFrom(weeks: seq<string>): (convert: int -> Option<string>)
    ensures forall num :: 0 < num <= |weeks| ==> convert(num) == Some(weeks[num - 1])
    ensures forall num :: (num <= 0 || |weeks| < num) ==> convert(num) == None
  {
    num => WeekdayText(weeks, num)
  }

  /**
   * The four functions that model the five Java converters (Types 2 and 3
   * share `ClosureType2`) give the same answer for every number.
   */
  lemma ConvertersAgree(num: int)
    ensures ClosureType1()(num) == ClosureType2()(num)
    ensures ClosureType2()(num) == GetTextOfWeekday()(num)
    ensures GetTextOfWeekday()(num) == GetTextOfWeekdayFrom(DefaultWeeks)(num)
  {
  }

  /** The outputs the demonstrations announce for types 1 to 4. */
  lemma DefaultWeekdays()
    ensures ClosureType1()(1) == Some("Mon")
    ensures ClosureType2()(2) == Some("Tue")
    ensures ClosureType2()(3) == Some("Wed")
    ensures GetTextOfWeekday()(4) == Some("Thu")
    ensures GetTextOfWeekday()(0) == None && GetTextOfWeekday()(8) == None
  {
  }

  /**
   * A converter made by `GetTextOfWeekdayFrom` depends on its table and on
   * nothing else: two converters that answer alike for every number were
   * built from the same table.
   */
  lemma ConverterDeterminesTable(w1: seq<string>, w2: seq<string>)
    requires forall num :: GetTextOfWeekdayFrom(w1)(num) == GetTextOfWeekdayFrom(w2)(num)
    ensures w1 == w2
  {
    var c1, c2 := GetTextOfWeekdayFrom(w1), GetTextOfWeekdayFrom(w2);
    // The last position of the longer table has text in one converter only.
    var longest := if |w1| < |w2| then |w2| else |w1|;
    assert c1(longest) == c2(longest);
    forall i | 0 <= i < |w1|
      ensures w1[i] == w2[i]
    {
      assert c1(i + 1) == c2(i + 1);
    }
  }

  /**
   * Type 5: the outputs announced for the Arab and the Indian converters. That
   * making the second leaves the first as it was holds by construction: a
   * converter is a value fixed by its own table, and the two tables give
   * different converters (the third clause).
   */
  lemma ArabAndIndianConverters()
    ensures GetTextOfWeekdayFrom(ArabWeeks)(5) == Some("Tue")
    ensures GetTextOfWeekdayFrom(DefaultWeeks)(5) == Some("Fri")
    ensures GetTextOfWeekdayFrom(ArabWeeks) != GetTextOfWeekdayFrom(DefaultWeeks)
  {
  }

  // ---------------------------------------------------------------------------
  // Type 6: a supplier that captures a value, not a variable
  // ---------------------------------------------------------------------------

  /** A supplier enclosing `lastInSequence = 0`; it can read the value but never advance it. */
  function GetNextInSequence(): (next: () -> int)
    ensures next() == 1
  {
    var lastInSequence := 0;
    () => lastInSequence + 1
  }

  /**
   * Type 6 as the demonstration runs it: a supplier is built and asked once,
   * then a second supplier is built and asked once; both answer 1, not 1 then 2.
   */
  lemma NextInSequenceStaysAtOne()
    ensures GetNextInSequence()() == 1
    ensures var first, second := GetNextInSequence(), GetNextInSequence();
      first() == 1 && second() == 1 && second() != first() + 1
  {
  }

  // ---------------------------------------------------------------------------
  // Type 7: partial application
  // ---------------------------------------------------------------------------

  /** Fixes the first argument of `fn` at `x`; the result waits for the second. */
  function Partial(fn: (Int32, Int32) -> Int32, x: Int32): (g: Int32 -> Int32)
    ensures forall y :: g(y) == fn(x, y)
  {
    y => fn(x, y)
  }

  /**
   * Partial applications of one function at different first arguments answer
   * independently: each keeps its own `x`, so applying them to the same `y`
   * gives different results exactly when `fn` does. This holds by construction,
   * since a partial application is a value that nothing can change later.
   */
  lemma PartialsAreIndependent(fn: (Int32, Int32) -> Int32, x1: Int32, x2: Int32, y: Int32)
    ensures Partial(fn, x1)(y) == fn(x1, y)
    ensures Partial(fn, x2)(y) == fn(x2, y)
    ensures Partial(fn, x1)(y) == Partial(fn, x2)(y) <==> fn(x1, y) == fn(x2, y)
  {
  }

  /** The adder of Type 7: Java's `Integer` addition. */
  function AddIntegers(x: Int32, y: Int32): (sum: Int32)
    ensures MinInt <= x as int + y as int <= MaxInt ==> sum as int == x as int + y as int
  {
    Add(x, y)
  }

  /**
   * Adding 10 and adding 20 to 5 give 15 and 25. That making the twenty-adder
   * leaves the ten-adder unchanged holds by construction: both are values.
   */
  lemma AdderScenario()
    ensures Partial(AddIntegers, 10)(5) == 15
    ensures Partial(AddIntegers, 20)(5) == 25
    ensures Partial(AddIntegers, 10)(5) != Partial(AddIntegers, 20)(5)
  {
  }
}
