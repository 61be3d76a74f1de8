/** Prompt tables loaded from the language files, and how handlers read them. */
module Prompts {
  import opened Failures

  /** A JSON value of a language file: a single string or a list of phrasings. */
  datatype PromptValue = Str(text: string) | Variants(items: seq<string>)

  type PromptTable = map<string, PromptValue>

  /** `table[key]`: raises KeyError when the key is absent. */
  function Get(table: PromptTable, key: string): (r: Result<PromptValue>)
    ensures r.Ok? <==> key in table
    ensures r.Ok? ==> r.value == table[key]
    ensures r.Err? ==> r.error == KeyError(key)
  {
    if key in table then Ok(table[key]) else Err(KeyError(key))
  }

  /** `table[key]` used as spoken text or as a format template. */
  function Text(table: PromptTable, key: string): (r: Result<string>)
    ensures r.Ok? <==> key in table && table[key].Str?
    ensures r.Ok? ==> table[key] == Str(r.value)
    ensures r.Err? ==> r.error == (if key in table then NotText(key) else KeyError(key))
  {
    match Get(table, key)
    case Err(e) => Err(e)
    case Ok(v) => if v.Str? then Ok(v.text) else Err(NotText(key))
  }

  /** Whether random.choice has anything to choose from. */
  predicate HasChoices(v: PromptValue) {
    match v
    case Str(text) => text != []
    case Variants(items) => items != []
  }

  /** The strings random.choice may return for `v`: an element of a list, or one character of a string. */
  ghost predicate ChosenFrom(s: string, v: PromptValue) {
    match v
    case Str(text) => |s| == 1 && s[0] in text
    case Variants(items) => s in items
  }

  /** `random.choice(v)`, with the random draw supplied as `pick`. */
  function Choose(v: PromptValue, pick: nat): (r: Result<string>)
    ensures r.Ok? <==> HasChoices(v)
    ensures r.Ok? ==> ChosenFrom(r.value, v)
    ensures r.Err? ==> r.error == IndexError
  {
    match v
    case Str(text) => if text == [] then Err(IndexError) else Ok([text[pick % |text|]])
    case Variants(items) => if items == [] then Err(IndexError) else Ok(items[pick % |items|])
  }

  /** A draw below the length selects that very position. */
  lemma SmallDrawSelectsItself(i: nat, n: nat)
    requires i < n
    ensures i % n == i
  {
  }

  /** Every phrasing random.choice may return is returned by some draw. */
  lemma {:induction false} EveryChoiceIsReachable(v: PromptValue, s: string)
    requires ChosenFrom(s, v)
    ensures exists pick: nat :: Choose(v, pick) == Ok(s)
  {
    match v
    case Str(text) =>
      var i :| 0 <= i < |text| && text[i] == s[0];
      SmallDrawSelectsItself(i, |text|);
      assert [text[i]] == s;
      assert Choose(v, i) == Ok(s);
    case Variants(items) =>
      var i :| 0 <= i < |items| && items[i] == s;
      SmallDrawSelectsItself(i, |items|);
      assert Choose(v, i) == Ok(s);
  }

  /** `random.choice(table[key])`. */
  function Pick(table: PromptTable, key: string, pick: nat): (r: Result<string>)
    ensures r.Ok? <==> key in table && HasChoices(table[key])
    ensures r.Ok? ==> ChosenFrom(r.value, table[key])
    ensures r.Err? ==> r.error == (if key in table then IndexError else KeyError(key))
  {
    match Get(table, key)
    case Err(e) => Err(e)
    case Ok(v) => Choose(v, pick)
  }
}
