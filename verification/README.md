# ClosureDemo in Dafny

A model of `ClosureDemo.java`, a teaching file that shows seven ways of building a
closure in Java 8. The model has three parts, each written as pure functions,
function values and lemmas.

- **Weekday lookup.** One rule turns a day number into its name: entry
  `num - 1` of a table when `0 < num <= length`, and `null` otherwise.
  `WeekdayText` states the rule once, over `seq<string>`, and returns
  `Option<string>` (`None` plays the part of `null`). The five demonstrations
  differ in where the table lives:
  - an anonymous object's field (`AnonymousConverter`, `ClosureType1`);
  - a local built inside the lambda body (`ClosureType2`, which covers Types 2 and 3);
  - a local of the enclosing factory (`GetTextOfWeekday`, Type 4);
  - a table the caller passes in (`GetTextOfWeekdayFrom`, Type 5).

  `NthDay` is an independent reading of the rule that walks the table one day
  at a time. It is the reference the lookup is proved against.
- **Constant sequence supplier** (Type 6). `GetNextInSequence` encloses
  `lastInSequence = 0` and yields `lastInSequence + 1`.
- **Partial application** (Type 7). `Partial(fn, x)` is `y => fn(x, y)`.
  `AddIntegers` is the `add` example. Its arithmetic is Java `int` addition,
  with the 32-bit wrap-around written out in module `JavaInt`.

## Model

| member | source | states |
|---|---|---|
| `ClosureDemo.WeekdayText` | ClosureDemo.java:46 | the lookup has text exactly when `0 < num <= |weeks|`; the text is then `weeks[num-1]`, an entry of the table; otherwise the result is `None`, with no out-of-range indexing |
| `ClosureDemo.WeekdayTextIsNthDay` | ClosureDemo.java:46 | for every table and number, the bounds-checked lookup equals walking the table day by day (induction over the table) |
| `ClosureDemo.AnonymousConverter.Convert` | ClosureDemo.java:42-48 | the Type 1 object's `convert` gives entry `num-1` of the table in its field when `0 < num <= |weeks|`, and `None` otherwise |
| `ClosureDemo.ClosureType1` | ClosureDemo.java:42-48 | the Type 1 converter over the Monday-first table maps 1..7 to its entries and every other number to `None` |
| `ClosureDemo.ClosureType2` | ClosureDemo.java:54-57 | the Type 2 and Type 3 lambdas, which build the table inside their body (also :63-66), map 1..7 to the Monday-first entries and every other number to `None` |
| `ClosureDemo.GetTextOfWeekday` | ClosureDemo.java:72-75 | the Type 4 closure maps 1..7 to the Monday-first table's entries and every other number to `None` |
| `ClosureDemo.GetTextOfWeekdayFrom` | ClosureDemo.java:82-84 | the Type 5 closure maps `1..|weeks|` to the caller's table's entries and every other number to `None` |
| `ClosureDemo.ConvertersAgree` | ClosureDemo.java:41-84 | the anonymous-object, lambda, `getTextOfWeekday()` and `getTextOfWeekday(defaultTable)` converters agree on every number |
| `ClosureDemo.DefaultWeekdays` | ClosureDemo.java:41-78 | the announced outputs 1 → Mon, 2 → Tue, 3 → Wed and 4 → Thu, and `None` at 0 and 8 |
| `ClosureDemo.ConverterDeterminesTable` | ClosureDemo.java:82-84 | a Type 5 closure depends on its table alone: two closures that agree on every number were built from equal tables |
| `ClosureDemo.ArabAndIndianConverters` | ClosureDemo.java:85-90 | the Arab closure gives Tue at 5 and the Indian closure gives Fri at 5; the two tables give different closures; that the two closures do not affect each other holds by construction, since each is a value fixed by its own table |
| `ClosureDemo.GetNextInSequence` | ClosureDemo.java:95-98 | the supplier enclosing `lastInSequence = 0` yields 1 |
| `ClosureDemo.NextInSequenceStaysAtOne` | ClosureDemo.java:99-102 | as the demonstration runs it, two separately built suppliers are each asked once; both answer 1, so the second does not give 2 |
| `ClosureDemo.Partial` | ClosureDemo.java:105-107 | for every `y`, `Partial(fn, x)(y) == fn(x, y)` |
| `ClosureDemo.PartialsAreIndependent` | ClosureDemo.java:105-107 | two partial applications of one function keep their own `x`; they differ at `y` exactly when `fn(x1, y)` and `fn(x2, y)` differ (by construction, as each is a value) |
| `ClosureDemo.AddIntegers` | ClosureDemo.java:109 | the adder gives the exact sum whenever it fits in 32 bits |
| `ClosureDemo.AdderScenario` | ClosureDemo.java:108-114 | `partial(add, 10)(5) == 15` and `partial(add, 20)(5) == 25`, so the two adders answer differently; the ten-adder staying unchanged holds by construction |
| `JavaInt.Wrap` | ClosureDemo.java:109 | narrowing to 32 bits: the result is congruent to its argument modulo 2^32 and equals it when it already fits |
| `JavaInt.Add` | ClosureDemo.java:109 | Java `int` addition: the result is congruent to the sum modulo 2^32, is the sum when that fits, and is the sum minus (or plus) 2^32 on overflow (or underflow) |
| `JavaInt.AddOverflowWraps` | ClosureDemo.java:109 | the largest int plus 1 is the smallest int |

## Left out

- `main` and the `System.out.println` calls (ClosureDemo.java:8-16 and the printing lines of each demonstration) are output only. The values the comments announce are stated as lemmas instead.
- The difference between an anonymous class, a custom `@FunctionalInterface` and `java.util.function.Function` is a Java language mechanism. Types 2 and 3 have the same body and are modelled by one function, `ClosureType2`. Every converter is a Dafny function value.
- `null` elements in a table and `null` `Integer` arguments are not modelled. Unboxing a `null` argument would throw `NullPointerException`.
- A `null` table is not modelled. `getTextOfWeekday((String[]) null)` (ClosureDemo.java:82-83) still returns a closure, and applying it to a positive number throws `NullPointerException` at `weeks.length`. For `num <= 0` it returns `null` without reading the table, because `&&` stops at `num > 0`. A `seq<string>` is never absent.
- The `String[]` tables are modelled as immutable `seq<string>`. The demonstrations never change an array after handing it to a closure.
- Java's rule that captured locals be effectively final (ClosureDemo.java:97) is a compile-time restriction. In Dafny every captured value is immutable anyway.
- Day numbers are unbounded `int` rather than 32-bit. Every `int` the Java code could pass falls within this domain, and the lookup never does arithmetic that could overflow.
- `ClosureDemo.GetNextInSequence`: the supplier's answer is an unbounded `int`. Since `0 + 1` cannot overflow, nothing is lost.
- A `null` `fn` passed to `partial` (ClosureDemo.java:105-107) is not modelled. Java would throw `NullPointerException` only when the returned function is applied. Dafny function values are never absent.
- A stateful Java `Supplier` cannot be written as a Dafny `() -> int`. Examples are an anonymous class with a counter field, or a lambda that captures an `int[]`. So the point of ClosureDemo.java:93-94, that a closure captures values and not variables, holds in the model by construction rather than being proved.
