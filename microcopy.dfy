/** The workspace's playful copy: greetings by day and hour, and loading messages by elapsed time. */
module Microcopy {
  import opened Strings

  /** What `Math.random()` returns. */
  type Unit = r: real | 0.0 <= r < 1.0

  const MorningGreetings: seq<string> := [
    "Good morning, {name}! What sort of creative chaos are we brewing today?",
    "Rise and grind, {name}! Your ad empire awaits.",
    "Morning, {name}! Coffee is hot and ideas are flowing.",
    "Top of the morning, {name}! Ready to turn some heads?"]

  const AfternoonGreetings: seq<string> := [
    "Afternoon, {name}! Still riding that creative wave?",
    "Hey {name}, what sort of campaign madness are we making today?",
    "Good afternoon, creative force. What are we shipping next?",
    "Afternoon vibes, {name}. What masterpiece are we crafting?"]

  const EveningGreetings: seq<string> := [
    "Evening, {name}! The night is young and the ideas are flowing.",
    "Hey {name}, burning the midnight oil or just getting started?",
    "Evening, {name}! Let's make some ads that shine brighter than the stars.",
    "Night shift activated, {name}. Let's finish strong."]

  const MondayGreetings: seq<string> := [
    "Monday motivation activated, {name}! What are we crushing this week?",
    "Happy Monday, {name}! New week, new ads to conquer.",
    "Monday morning, {name}. Let's turn those weekend vibes into campaign gold."]

  const FridayGreetings: seq<string> := [
    "Friday energy, {name}! The weekend is near but the creativity is here.",
    "TGIF, {name}. Let's close the week with something unforgettable.",
    "Friday, {name}! Let's end the week with a creative mic drop."]

  const ShortLoading: seq<string> := [
    "Cooking up magic...",
    "Brewing brilliance...",
    "Warming up the creative engines..."]

  const MediumLoading: seq<string> := [
    "Consulting the creative gods...",
    "Teaching AI to understand your vision...",
    "Turning caffeine into campaigns..."]

  const LongLoading: seq<string> := [
    "This is taking a moment because we are making it perfect...",
    "Teaching our AI the finer points of your brand aesthetic...",
    "Building your creative empire, one pixel at a time..."]

  const NamePlaceholder: string := "{name}"

  /** `Math.floor(r * n)`: the index a draw picks out of `n`. */
  function PickIndex(r: Unit, n: nat): (k: nat)
    requires n > 0
    ensures k < n
    ensures k as real <= r * n as real < (k + 1) as real
  {
    var k := (r * n as real).Floor;
    assert r * n as real < n as real;
    k
  }

  /** `pickRandom`: the message whose slice of [0, 1) holds the draw. */
  function PickRandom(messages: seq<string>, r: Unit): (m: string)
    requires |messages| > 0
    ensures m in messages
    ensures exists k :: 0 <= k < |messages| && m == messages[k] && k as real <= r * |messages| as real < (k + 1) as real
  {
    var k := PickIndex(r, |messages|);
    messages[k]
  }

  /** Every message of a pool can be drawn: the draw `k / n` picks message `k`. */
  lemma EveryMessageReachable(messages: seq<string>, k: nat)
    requires k < |messages|
    ensures 0.0 <= k as real / |messages| as real < 1.0
    ensures PickRandom(messages, k as real / |messages| as real) == messages[k]
  {
    var n := |messages| as real;
    var r := k as real / n;
    assert r * n == k as real;
    assert r < 1.0 by {
      assert k as real < n;
    }
    assert (r * n).Floor == k;
    assert PickIndex(r, |messages|) == k;
  }

  /** `getLoadingMessage`: the short pool up to 3 seconds, the medium pool up to 10, the long pool after. */
  function GetLoadingMessage(secondsElapsed: int, r: Unit): (m: string)
    ensures secondsElapsed <= 3 ==> m in ShortLoading
    ensures 3 < secondsElapsed <= 10 ==> m in MediumLoading
    ensures secondsElapsed > 10 ==> m in LongLoading
  {
    if secondsElapsed <= 3 then PickRandom(ShortLoading, r)
    else if secondsElapsed <= 10 then PickRandom(MediumLoading, r)
    else PickRandom(LongLoading, r)
  }

  /** The three loading pools share no message, so a message tells how long the wait has been. */
  lemma LoadingMessageTellsWait(secondsElapsed: int, r: Unit)
    ensures GetLoadingMessage(secondsElapsed, r) in ShortLoading <==> secondsElapsed <= 3
    ensures GetLoadingMessage(secondsElapsed, r) in MediumLoading <==> 3 < secondsElapsed <= 10
    ensures GetLoadingMessage(secondsElapsed, r) in LongLoading <==> secondsElapsed > 10
  {
    var m := GetLoadingMessage(secondsElapsed, r);
    assert forall a, b :: a in ShortLoading && b in MediumLoading ==> a != b;
    assert forall a, b :: a in ShortLoading && b in LongLoading ==> a != b;
    assert forall a, b :: a in MediumLoading && b in LongLoading ==> a != b;
  }

  /**
   * The pool `getGreeting` draws from: Monday's or Friday's when the coin
   * lands under one half on that day, then by hour: morning from 6 to 12,
   * afternoon from 12 to 18, evening otherwise. `day` is `getDay()`
   * (0 is Sunday) and `hour` is `getHours()`.
   */
  function GreetingPool(day: int, hour: int, coin: Unit): (pool: seq<string>)
    ensures |pool| > 0
    ensures day == 1 && coin < 0.5 ==> pool == MondayGreetings
    ensures day == 5 && coin < 0.5 ==> pool == FridayGreetings
    ensures !((day == 1 || day == 5) && coin < 0.5) ==>
              pool == (if 6 <= hour < 12 then MorningGreetings
                       else if 12 <= hour < 18 then AfternoonGreetings
                       else EveningGreetings)
  {
    if day == 1 && coin < 0.5 then MondayGreetings
    else if day == 5 && coin < 0.5 then FridayGreetings
    else if hour >= 6 && hour < 12 then MorningGreetings
    else if hour >= 12 && hour < 18 then AfternoonGreetings
    else EveningGreetings
  }

  /** The template drawn for the greeting. */
  function GreetingTemplate(day: int, hour: int, coin: Unit, pick: Unit): (t: string)
    ensures t in GreetingPool(day, hour, coin)
  {
    PickRandom(GreetingPool(day, hour, coin), pick)
  }

  /**
   * `getGreeting`: the drawn template with its first `{name}` replaced by the
   * name, as `replace` does it, `$` patterns in the name included; clock and
   * draws are parameters. A template without `{name}` is shown as it is.
   */
  function GetGreeting(name: string, day: int, hour: int, coin: Unit, pick: Unit): (g: string)
    ensures !Contains(GreetingTemplate(day, hour, coin, pick), NamePlaceholder) ==> g == GreetingTemplate(day, hour, coin, pick)
  {
    var template := GreetingTemplate(day, hour, coin, pick);
    if !Contains(template, NamePlaceholder) then
      ReplaceFirstAbsent(template, NamePlaceholder, name);
      ReplaceFirst(template, NamePlaceholder, name)
    else ReplaceFirst(template, NamePlaceholder, name)
  }

  /** Whenever the template asks for the name, a name without `$` appears in the greeting as it is. */
  lemma GreetingNamesUser(name: string, day: int, hour: int, coin: Unit, pick: Unit)
    requires Contains(GreetingTemplate(day, hour, coin, pick), NamePlaceholder)
    ensures '$' !in name ==> Contains(GetGreeting(name, day, hour, coin, pick), name)
  {
    var s := GreetingTemplate(day, hour, coin, pick);
    ReplaceFirstInserts(s, NamePlaceholder, name);
    var k :| 0 <= k <= |s| - |NamePlaceholder| && OccursAt(s, NamePlaceholder, k)
      && ReplaceFirst(s, NamePlaceholder, name)
         == s[..k] + Substitute(name, NamePlaceholder, s[..k], s[k + |NamePlaceholder|..]) + s[k + |NamePlaceholder|..];
    ContainsInfix(s[..k], Substitute(name, NamePlaceholder, s[..k], s[k + |NamePlaceholder|..]), s[k + |NamePlaceholder|..]);
  }

  /**
   * Only the first `{name}` is replaced, by the name with its `$` patterns
   * expanded: the text after it is kept as written, and a name without `$`
   * is inserted as it is.
   */
  lemma OnlyFirstPlaceholderReplaced(name: string, day: int, hour: int, coin: Unit, pick: Unit, before: string, after: string)
    requires GreetingTemplate(day, hour, coin, pick) == before + NamePlaceholder + after
    requires forall i :: 0 <= i < |before| ==> !OccursAt(before + NamePlaceholder + after, NamePlaceholder, i)
    ensures GetGreeting(name, day, hour, coin, pick) == before + Substitute(name, NamePlaceholder, before, after) + after
    ensures '$' !in name ==> GetGreeting(name, day, hour, coin, pick) == before + name + after
  {
    assert OccursAt(before + NamePlaceholder + after, NamePlaceholder, |before|);
    ReplaceFirstAtFirst(before, NamePlaceholder, after, name);
  }

  /**
   * `replace` expands the patterns of a name: `$&` gives back the placeholder
   * itself, so the template is shown unchanged, and `$$` gives one `$`.
   */
  lemma DollarPatternsInName(day: int, hour: int, coin: Unit, pick: Unit, before: string, after: string)
    requires GreetingTemplate(day, hour, coin, pick) == before + NamePlaceholder + after
    requires forall i :: 0 <= i < |before| ==> !OccursAt(before + NamePlaceholder + after, NamePlaceholder, i)
    ensures GetGreeting("$&", day, hour, coin, pick) == GreetingTemplate(day, hour, coin, pick)
    ensures GetGreeting("A$$B", day, hour, coin, pick) == before + "A$B" + after
  {
    OnlyFirstPlaceholderReplaced("$&", day, hour, coin, pick, before, after);
    OnlyFirstPlaceholderReplaced("A$$B", day, hour, coin, pick, before, after);
    SubstituteAmpersand(before, after);
    SubstituteDoubleDollar(before, after);
  }

  /** `$&` in a replacement stands for the matched `{name}`. */
  lemma SubstituteAmpersand(before: string, after: string)
    ensures Substitute("$&", NamePlaceholder, before, after) == NamePlaceholder
  {
    var r := "$&";
    assert r[0] == '$' && r[1] == '&' && r[2..] == [];
    assert Substitute(r[2..], NamePlaceholder, before, after) == [];
  }

  /** `$$` in a replacement stands for one `$`. */
  lemma SubstituteDoubleDollar(before: string, after: string)
    ensures Substitute("A$$B", NamePlaceholder, before, after) == "A$B"
  {
    var r := "A$$B";
    assert r[0] == 'A' && r[1..] == "$$B";
    var t := "$$B";
    assert t[0] == '$' && t[1] == '$' && t[2..] == "B";
    var u := "B";
    assert u[0] == 'B' && u[1..] == [];
    assert Substitute(u, NamePlaceholder, before, after) == "B";
    assert Substitute(t, NamePlaceholder, before, after) == "$B";
  }
}
