/**
 * BBCommand's item parameter: a case-insensitive choice between the item
 * names "saw" and "stonecutter".
 */
module BBCommand {

  /** BBCommand.BBItem: the (lower-case) item type it was built from. */
  datatype BBItem = BBItem(itemType: string)

  /** ParameterTypeConverterException and its message. */
  datatype ConverterError = ParameterTypeConverterException(message: string)

  datatype Result<T> = Success(value: T) | Failure(error: ConverterError)

  /** BBItem.items, the accepted item names. */
  const Items: seq<string> := ["saw", "stonecutter"]

  /** Character.toLowerCase on the ASCII letters; every other character is kept. */
  function LowerChar(c: char): char
  {
    if 'A' <= c <= 'Z' then (c as int + ('a' as int - 'A' as int)) as char else c
  }

  /** String.toLowerCase, character by character. */
  function ToLower(s: string): (r: string)
    ensures |r| == |s|
    ensures forall i :: 0 <= i < |s| ==> r[i] == LowerChar(s[i])
  {
    seq(|s|, i requires 0 <= i < |s| => LowerChar(s[i]))
  }

  /** a and b differ at most in the case of their letters. */
  predicate EqualsIgnoreCase(a: string, b: string)
  {
    |a| == |b| && forall i :: 0 <= i < |a| ==> LowerChar(a[i]) == LowerChar(b[i])
  }

  /** BBItemParamConverter.fromArgument. */
  function FromArgument(argument: string): (r: Result<BBItem>)
    ensures r.Success? ==> r.value.itemType in Items
    ensures r.Failure? ==> r.error == ParameterTypeConverterException("Invalid item name")
  {
    var lowered := ToLower(argument);
    if lowered !in Items then Failure(ParameterTypeConverterException("Invalid item name"))
    else Success(BBItem(lowered))
  }

  /** Lower-casing a lower-case string changes nothing. */
  lemma ToLowerIdempotent(s: string)
    ensures ToLower(ToLower(s)) == ToLower(s)
  {
  }

  /** Lower-casing sends two strings to the same result exactly when they
      differ only in case. */
  lemma ToLowerEqualIffIgnoreCase(a: string, b: string)
    ensures ToLower(a) == ToLower(b) <==> EqualsIgnoreCase(a, b)
  {
  }

  /** The converter accepts exactly the case variants of the two item names,
      and the item it returns carries the lower-case name. */
  lemma FromArgumentAccepts(argument: string)
    ensures FromArgument(argument).Success? <==>
              EqualsIgnoreCase(argument, "saw") || EqualsIgnoreCase(argument, "stonecutter")
    ensures FromArgument(argument).Success? ==>
              EqualsIgnoreCase(argument, FromArgument(argument).value.itemType)
  {
    ItemsAreLowerCase();
    LoweredMatchesItem(argument, Items[0]);
    LoweredMatchesItem(argument, Items[1]);
  }

  /** The lower case of an argument is an item name exactly when the argument
      is that name up to case. */
  lemma LoweredMatchesItem(argument: string, item: string)
    requires ToLower(item) == item
    ensures ToLower(argument) == item <==> EqualsIgnoreCase(argument, item)
  {
  }

  /** The item names are written in lower case. */
  lemma ItemsAreLowerCase()
    ensures forall k :: 0 <= k < |Items| ==> ToLower(Items[k]) == Items[k]
  {
  }

  /** Arguments that differ only in case convert alike: "SAW" and "saw" give
      equal items. */
  lemma FromArgumentIgnoresCase(a: string, b: string)
    requires EqualsIgnoreCase(a, b)
    ensures FromArgument(a) == FromArgument(b)
  {
    ToLowerEqualIffIgnoreCase(a, b);
  }

  /** Converting a converted item's type again gives the same item. */
  lemma FromArgumentIdempotent(argument: string)
    requires FromArgument(argument).Success?
    ensures FromArgument(FromArgument(argument).value.itemType) == FromArgument(argument)
  {
    ToLowerIdempotent(argument);
  }
}
