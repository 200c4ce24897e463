/**
  Literal template substitution as the two template analyzers do it:
  `replaceAll` substitutes one key, `buildBodyFromTemplate` folds it over
  the configured key/value pairs in order. Both analyzers hold the same
  text of these two methods.

  `replaceAll` is a `while (true)` loop that is not guaranteed to stop, so
  the model gives it a budget `fuel` of replace passes; a result of None
  means "the loop has not stopped after `fuel` passes".
 */
module TemplateSubstitution {

  import opened Wrappers
  import opened JavaStrings

  /** `value.toString()` of a row value, after a null value became the text `<null>`. */
  function ValueText(value: Option<string>): string
  {
    if value.None? then "<null>" else value.value
  }

  /** The two local variables of the replace loop: the current template and `fromIndex`. */
  datatype Scan = Scan(text: string, from: nat)

  /**
    The replace loop of `replaceAll` run from the current template `text`,
    `fromIndex` and the position `found` that `indexOf(key, fromIndex)`
    returned, with at most `fuel` passes. Each pass replaces EVERY occurrence
    of the key in the whole text, moves `fromIndex` to the position found
    plus the length of the value, and searches again from there. The result
    is the final state of the loop, or None when `fuel` passes were not enough.
   */
  function ReplaceLoop(text: string, from: nat, found: Option<nat>, key: string, value: string, fuel: nat): Option<Scan>
    requires key != []
    decreases fuel
  {
    match found
    case None => Some(Scan(text, from))
    case Some(index) =>
      if fuel == 0 then None
      else
        var next := Replace(text, key, value);
        ReplaceLoop(next, index + |value|, IndexOf(next, key, index + |value|), key, value, fuel - 1)
  }

  /** A key that is not blank is not empty. */
  lemma NotBlankNotEmpty(key: string)
    ensures !IsBlank(key) ==> key != []
  {
  }

  /** What `replaceAll(template, key, value)` returns when given `fuel` passes. */
  function Substituted(template: string, key: string, value: Option<string>, fuel: nat): Option<string>
  {
    if IsBlank(key) then Some(template)
    else
      NotBlankNotEmpty(key);
      match ReplaceLoop(template, 0, IndexOf(template, key, 0), key, ValueText(value), fuel)
      case Some(sc) => Some(sc.text)
      case None => None
  }

  /** The replace loop of `replaceAll`, allowed `fuel` passes. */
  method ReplaceAll(template: string, key: string, value: Option<string>, fuel: nat) returns (r: Option<string>)
    ensures r == Substituted(template, key, value, fuel)
  {
    if IsBlank(key) {
      return Some(template);
    }
    NotBlankNotEmpty(key);
    var valueStr := ValueText(value);
    ghost var outcome := ReplaceLoop(template, 0, IndexOf(template, key, 0), key, valueStr, fuel);
    var text, fromIndex: nat, passes := template, 0, fuel;
    var index: Option<nat> := IndexOf(text, key, fromIndex);
    while index.Some?
      invariant ReplaceLoop(text, fromIndex, index, key, valueStr, passes) == outcome
      decreases passes
    {
      if passes == 0 {
        return None;
      }
      var next := Replace(text, key, valueStr);
      var nextFrom: nat := index.value + |valueStr|;
      var nextIndex: Option<nat> := IndexOf(next, key, nextFrom);
      assert ReplaceLoop(text, fromIndex, index, key, valueStr, passes)
          == ReplaceLoop(next, nextFrom, nextIndex, key, valueStr, passes - 1);
      text, fromIndex, passes, index := next, nextFrom, passes - 1, nextIndex;
    }
    return Some(text);
  }

  /** The key occurs nowhere in `s` at or after `from`. */
  ghost predicate NoneFrom(s: string, key: string, from: nat)
  {
    forall j: nat :: from <= j ==> !StartsAt(s, key, j)
  }

  /**
    When the loop stops, the key occurs nowhere at or after the final
    `fromIndex`: the search that ended it found nothing.
   */
  lemma {:induction false} ReplaceLoopExit(text: string, from: nat, key: string, value: string, fuel: nat)
    requires key != []
    ensures var r := ReplaceLoop(text, from, IndexOf(text, key, from), key, value, fuel);
      r.Some? ==> NoneFrom(r.value.text, key, r.value.from)
    decreases fuel
  {
    var found: Option<nat> := IndexOf(text, key, from);
    if found.None? {
      IndexOfFirst(text, key, from);
      assert ReplaceLoop(text, from, found, key, value, fuel) == Some(Scan(text, from));
      assert NoneFrom(text, key, from);
    } else if fuel > 0 {
      var next := Replace(text, key, value);
      var nextFrom: nat := found.value + |value|;
      ReplaceLoopExit(next, nextFrom, key, value, fuel - 1);
      assert ReplaceLoop(text, from, found, key, value, fuel)
          == ReplaceLoop(next, nextFrom, IndexOf(next, key, nextFrom), key, value, fuel - 1);
    } else {
      assert ReplaceLoop(text, from, found, key, value, fuel) == None;
    }
  }

  /** A key that `trim` reduces to nothing leaves the template as it is. */
  lemma BlankKeyUnchanged(template: string, key: string, value: Option<string>, fuel: nat)
    requires Trim(key) == []
    ensures Substituted(template, key, value, fuel) == Some(template)
  {
    BlankIsTrimmedEmpty(key);
  }

  /** A null value is substituted exactly like the text `<null>`. */
  lemma NullValueIsLiteral(template: string, key: string, fuel: nat)
    ensures Substituted(template, key, None, fuel) == Substituted(template, key, Some("<null>"), fuel)
  {
  }

  /** A key that does not occur in the template leaves it unchanged, whatever the budget. */
  lemma AbsentKeyUnchanged(template: string, key: string, value: Option<string>, fuel: nat)
    requires forall j: nat :: !StartsAt(template, key, j)
    ensures Substituted(template, key, value, fuel) == Some(template)
  {
    if !IsBlank(key) {
      IndexOfFirst(template, key, 0);
    }
  }

  /**
    When the key does occur and the value is no longer than the key, the
    loop stops: either the text gets shorter, or it keeps its length and
    `fromIndex` moves strictly forward. Measure orders the loop states that way.
   */
  function Measure(text: string, from: nat): nat
  {
    |text| * (|text| + 1) + (if from <= |text| then |text| - from else 0)
  }

  /** Enough passes for any template of this length. */
  function FuelBound(template: string): nat
  {
    Measure(template, 0)
  }

  lemma {:induction false} MulMonotone(x: nat, y: nat, z: nat)
    requires x <= y
    ensures x * z <= y * z
    decreases z
  {
    if z > 0 {
      MulMonotone(x, y, z - 1);
      assert x * z == x * (z - 1) + x;
      assert y * z == y * (z - 1) + y;
    }
  }

  lemma SquareStep(a: nat, b: nat)
    requires a < b
    ensures a * (a + 1) + a + 1 <= b * (b + 1)
  {
    MulMonotone(a + 1, b, a + 2);
    MulMonotone(a + 2, b + 1, b);
    assert (a + 1) * (a + 2) == a * (a + 1) + 2 * (a + 1);
    assert (a + 2) * b == b * (a + 2);
  }

  lemma FuelBoundMonotone(a: string, b: string)
    requires |a| <= |b|
    ensures FuelBound(a) <= FuelBound(b)
  {
    var x, y := |a|, |b|;
    assert x * (x + 1) <= x * (y + 1) <= y * (y + 1);
  }

  /** One pass with a value no longer than the key decreases Measure. */
  lemma PassDecreases(text: string, from: nat, index: nat, key: string, value: string)
    requires key != [] && |value| <= |key|
    requires IndexOf(text, key, from) == Some(index)
    ensures Measure(Replace(text, key, value), index + |value|) < Measure(text, from)
    ensures |Replace(text, key, value)| <= |text|
  {
    IndexOfFirst(text, key, from);
    ReplaceLength(text, key, value);
    var n, m := |text|, |Replace(text, key, value)|;
    if |value| < |key| {
      SquareStep(m, n);
    }
  }

  lemma {:induction false} LoopTerminates(text: string, from: nat, key: string, value: string, fuel: nat)
    requires key != [] && |value| <= |key|
    requires fuel >= Measure(text, from)
    ensures ReplaceLoop(text, from, IndexOf(text, key, from), key, value, fuel).Some?
    ensures |ReplaceLoop(text, from, IndexOf(text, key, from), key, value, fuel).value.text| <= |text|
    decreases fuel
  {
    var found: Option<nat> := IndexOf(text, key, from);
    if found.Some? {
      PassDecreases(text, from, found.value, key, value);
      var next := Replace(text, key, value);
      var nextFrom: nat := found.value + |value|;
      LoopTerminates(next, nextFrom, key, value, fuel - 1);
      assert ReplaceLoop(text, from, found, key, value, fuel)
          == ReplaceLoop(next, nextFrom, IndexOf(next, key, nextFrom), key, value, fuel - 1);
    }
  }

  /**
    `replaceAll` stops whenever the value is no longer than the key, within
    FuelBound(template) passes, and never lengthens the template.
   */
  lemma SubstitutionTerminates(template: string, key: string, value: Option<string>, fuel: nat)
    requires IsBlank(key) || |ValueText(value)| <= |key|
    requires fuel >= FuelBound(template)
    ensures Substituted(template, key, value, fuel).Some?
    ensures |Substituted(template, key, value, fuel).value| <= |template|
  {
    if !IsBlank(key) {
      NotBlankNotEmpty(key);
      LoopTerminates(template, 0, key, ValueText(value), fuel);
    }
  }

  function Repeat(c: char, n: nat): (r: string)
    ensures |r| == n && forall i :: 0 <= i < n ==> r[i] == c
  {
    seq(n, _ => c)
  }

  lemma {:induction false} ReplaceDoubles(n: nat)
    ensures Replace(Repeat('A', n), "A", "AA") == Repeat('A', 2 * n)
    decreases n
  {
    if n > 0 {
      var s := Repeat('A', n);
      assert s[..1] == "A";
      assert s[1..] == Repeat('A', n - 1);
      ReplaceDoubles(n - 1);
      assert "AA" + Repeat('A', 2 * (n - 1)) == Repeat('A', 2 * n);
    }
  }

  /** Inside a run of `A`s the search for `A` finds the very position it starts from. */
  lemma FoundAtOnce(n: nat, from: nat)
    requires from < n
    ensures IndexOf(Repeat('A', n), "A", from) == Some(from)
  {
    assert Repeat('A', n)[from..from + 1] == "A";
  }

  /** On a run of at least two `A`s, replacing `A` by `AA` finds `A` again after every pass, so no budget suffices. */
  lemma {:induction false} LoopDiverges(n: nat, from: nat, fuel: nat)
    requires 2 <= n && from < n
    ensures ReplaceLoop(Repeat('A', n), from, IndexOf(Repeat('A', n), "A", from), "A", "AA", fuel) == None
    decreases fuel
  {
    FoundAtOnce(n, from);
    if fuel > 0 {
      ReplaceDoubles(n);
      LoopDiverges(2 * n, from + 2, fuel - 1);
    }
  }

  /**
    With key `A`, value `AA` and template `AA` no number of passes ends the
    loop: every pass doubles the template while `fromIndex` only moves on by
    two. With Java's bounded strings the call therefore never returns
    normally; the growing text ends it with an `OutOfMemoryError`.
   */
  lemma SubstitutionDiverges(fuel: nat)
    ensures Substituted("AA", "A", Some("AA"), fuel) == None
  {
    assert Repeat('A', 2) == "AA";
    LoopDiverges(2, 0, fuel);
  }

  /** One pass replaces every occurrence, not only the one found. */
  lemma ExampleAllOccurrences()
    ensures Substituted("A-A", "A", Some("B"), 1) == Some("B-B")
  {
    assert "A"[0] == 'A';
    assert IndexOf("A-A", "A", 0) == Some(0);
    assert Replace("A", "A", "B") == "B";
    assert Replace("-A", "A", "B") == "-B";
    assert Replace("A-A", "A", "B") == "B-B";
    assert IndexOf("B-B", "A", 1) == None;
  }

  /** A value that contains its key is not substituted again when it ends the template. */
  lemma ExampleValueContainsKey()
    ensures Substituted("KEY", "KEY", Some("KEYVALUE"), 1) == Some("KEYVALUE")
  {
    assert "KEY"[0] == 'K';
    StartsAtSlice("KEY", "KEY", 0);
    assert IndexOf("KEY", "KEY", 0) == Some(0);
    assert Replace("KEY", "KEY", "KEYVALUE") == "KEYVALUE";
    assert IndexOf("KEYVALUE", "KEY", 8) == None;
  }

  /** Matching uses the key as written: its surrounding spaces are part of it. */
  lemma ExampleUntrimmedKey()
    ensures Substituted("Hi NAME", " NAME ", Some("Bob"), 0) == Some("Hi NAME")
  {
  }

  /** Outcome of `buildBodyFromTemplate`: a text, a loop that has not stopped, or `values.get(i)` out of range. */
  datatype Rendering = Rendered(text: Option<string>) | Diverged | IndexOutOfBounds(index: nat)

  /** The first `n` key/value pairs applied to `template` one after another. */
  function ApplyPairs(template: string, keys: seq<string>, values: seq<Option<string>>, n: nat, fuel: nat): Rendering
    requires n <= |keys|
    decreases n
  {
    if n == 0 then Rendered(Some(template))
    else
      match ApplyPairs(template, keys, values, n - 1, fuel)
      case Rendered(Some(text)) =>
        if n - 1 >= |values| then IndexOutOfBounds(n - 1)
        else (
          match Substituted(text, keys[n - 1], values[n - 1], fuel)
          case Some(next) => Rendered(Some(next))
          case None => Diverged)
      case stopped => stopped
  }

  /** Once a pair has stopped the rendering, the later pairs leave the outcome as it is. */
  lemma {:induction false} ApplyPairsStopped(template: string, keys: seq<string>, values: seq<Option<string>>,
                                             i: nat, n: nat, fuel: nat)
    requires i <= n <= |keys|
    requires !ApplyPairs(template, keys, values, i, fuel).Rendered?
    ensures ApplyPairs(template, keys, values, n, fuel) == ApplyPairs(template, keys, values, i, fuel)
    decreases n
  {
    if n > i {
      ApplyPairsStopped(template, keys, values, i, n - 1, fuel);
    }
  }

  /** What `buildBodyFromTemplate(template, keys, values)` returns. */
  function Render(template: Option<string>, keys: Option<seq<string>>, values: Option<seq<Option<string>>>, fuel: nat): Rendering
  {
    if template.None? || keys.None? || values.None? then Rendered(template)
    else ApplyPairs(template.value, keys.value, values.value, |keys.value|, fuel)
  }

  /** `buildBodyFromTemplate`: a null template, key array or value list passes the template through. */
  method BuildBodyFromTemplate(template: Option<string>, keys: Option<seq<string>>,
                               values: Option<seq<Option<string>>>, fuel: nat) returns (r: Rendering)
    ensures template.None? || keys.None? || values.None? ==> r == Rendered(template)
    ensures r == Render(template, keys, values, fuel)
  {
    if template.None? || keys.None? || values.None? {
      return Rendered(template);
    }
    var text := template.value;
    for i := 0 to |keys.value|
      invariant ApplyPairs(template.value, keys.value, values.value, i, fuel) == Rendered(Some(text))
    {
      if i >= |values.value| {
        ApplyPairsStopped(template.value, keys.value, values.value, i + 1, |keys.value|, fuel);
        return IndexOutOfBounds(i);
      }
      var next := ReplaceAll(text, keys.value[i], values.value[i], fuel);
      if next.None? {
        ApplyPairsStopped(template.value, keys.value, values.value, i + 1, |keys.value|, fuel);
        return Diverged;
      }
      text := next.value;
    }
    return Rendered(Some(text));
  }

  /** An out-of-range index reported by a later group of pairs, seen from the whole list. */
  function Shift(r: Rendering, offset: nat): Rendering
  {
    if r.IndexOutOfBounds? then IndexOutOfBounds(r.index + offset) else r
  }

  lemma {:induction false} ApplyPairsFirstGroup(template: string, ks1: seq<string>, vs1: seq<Option<string>>,
                                                ks2: seq<string>, vs2: seq<Option<string>>, n: nat, fuel: nat)
    requires |ks1| == |vs1| && n <= |ks1|
    ensures ApplyPairs(template, ks1 + ks2, vs1 + vs2, n, fuel) == ApplyPairs(template, ks1, vs1, n, fuel)
    decreases n
  {
    if n > 0 {
      ApplyPairsFirstGroup(template, ks1, vs1, ks2, vs2, n - 1, fuel);
      assert (ks1 + ks2)[n - 1] == ks1[n - 1];
      assert (vs1 + vs2)[n - 1] == vs1[n - 1];
    }
  }

  lemma {:induction false} ApplyPairsSecondGroup(template: string, ks1: seq<string>, vs1: seq<Option<string>>,
                                                 ks2: seq<string>, vs2: seq<Option<string>>, j: nat, fuel: nat)
    requires |ks1| == |vs1| && j <= |ks2|
    ensures var m := |ks1|;
      ApplyPairs(template, ks1 + ks2, vs1 + vs2, m + j, fuel) ==
        match ApplyPairs(template, ks1 + ks2, vs1 + vs2, m, fuel)
        case Rendered(Some(text)) => Shift(ApplyPairs(text, ks2, vs2, j, fuel), m)
        case stopped => stopped
    decreases j
  {
    var m := |ks1|;
    if j > 0 {
      ApplyPairsSecondGroup(template, ks1, vs1, ks2, vs2, j - 1, fuel);
      assert (ks1 + ks2)[m + j - 1] == ks2[j - 1];
      if m + j - 1 < |vs1 + vs2| {
        assert (vs1 + vs2)[m + j - 1] == vs2[j - 1];
      }
    }
  }

  /**
    The pairs are applied one after another, not simultaneously: rendering
    with two groups of pairs is rendering with the first group and then
    rendering that result with the second, so a later key also matches text
    that an earlier value inserted.
   */
  lemma RenderSequential(template: string, ks1: seq<string>, vs1: seq<Option<string>>,
                         ks2: seq<string>, vs2: seq<Option<string>>, fuel: nat)
    requires |ks1| == |vs1|
    ensures Render(Some(template), Some(ks1 + ks2), Some(vs1 + vs2), fuel) ==
      match Render(Some(template), Some(ks1), Some(vs1), fuel)
      case Rendered(Some(text)) => Shift(Render(Some(text), Some(ks2), Some(vs2), fuel), |ks1|)
      case stopped => stopped
  {
    ApplyPairsFirstGroup(template, ks1, vs1, ks2, vs2, |ks1|, fuel);
    ApplyPairsSecondGroup(template, ks1, vs1, ks2, vs2, |ks2|, fuel);
  }

  /** Key `A` becomes `B`, then key `B` turns both letters into `C`. */
  lemma ExampleSequentialPairs()
    ensures Render(Some("AB"), Some(["A", "B"]), Some([Some("B"), Some("C")]), 2) == Rendered(Some("CC"))
  {
    assert "A"[0] == 'A' && "B"[0] == 'B';
    assert Replace("B", "A", "B") == "B";
    assert Replace("AB", "A", "B") == "BB";
    assert IndexOf("BB", "A", 1) == None;
    assert Substituted("AB", "A", Some("B"), 2) == Some("BB");
    assert Replace("B", "B", "C") == "C";
    assert Replace("BB", "B", "C") == "CC";
    assert IndexOf("CC", "B", 1) == None;
    assert Substituted("BB", "B", Some("C"), 2) == Some("CC");
    var keys: seq<string>, values: seq<Option<string>> := ["A", "B"], [Some("B"), Some("C")];
    assert ApplyPairs("AB", keys, values, 1, 2) == Rendered(Some("BB"));
  }

  /**
    Rendering stops with a text no longer than the template when every
    non-blank key gets a value no longer than itself and there is a value for
    every key.
   */
  lemma {:induction false} ApplyPairsTerminates(template: string, keys: seq<string>, values: seq<Option<string>>,
                                                n: nat, fuel: nat)
    requires n <= |keys| <= |values|
    requires forall i :: 0 <= i < |keys| ==> IsBlank(keys[i]) || |ValueText(values[i])| <= |keys[i]|
    requires fuel >= FuelBound(template)
    ensures ApplyPairs(template, keys, values, n, fuel).Rendered?
    ensures ApplyPairs(template, keys, values, n, fuel).text.Some?
    ensures |ApplyPairs(template, keys, values, n, fuel).text.value| <= |template|
    decreases n
  {
    if n > 0 {
      ApplyPairsTerminates(template, keys, values, n - 1, fuel);
      var text := ApplyPairs(template, keys, values, n - 1, fuel).text.value;
      FuelBoundMonotone(text, template);
      SubstitutionTerminates(text, keys[n - 1], values[n - 1], fuel);
    }
  }

  lemma RenderTerminates(template: string, keys: seq<string>, values: seq<Option<string>>, fuel: nat)
    requires |keys| <= |values|
    requires forall i :: 0 <= i < |keys| ==> IsBlank(keys[i]) || |ValueText(values[i])| <= |keys[i]|
    requires fuel >= FuelBound(template)
    ensures Render(Some(template), Some(keys), Some(values), fuel).Rendered?
    ensures Render(Some(template), Some(keys), Some(values), fuel).text.Some?
  {
    ApplyPairsTerminates(template, keys, values, |keys|, fuel);
  }

  /** A configured template file; reading it is I/O, given to `Init` as a function. */
  datatype Resource = Resource(path: string)

  /** `loadTemplate`: no resource gives no template, otherwise the text read from it. */
  function LoadTemplate(res: Option<Resource>, read: Resource -> string): Option<string>
  {
    if res.None? then None else Some(read(res.value))
  }

  /** What the template analyzers render for one row: plain-text body, HTML body, subject, in that order. */
  datatype Prepared = Prepared(plain: Option<string>, html: Option<string>, subject: Option<string>)
                    | NotPrepared(cause: Rendering)

  function PrepareMessage(plainTemplate: Option<string>, htmlTemplate: Option<string>, subject: Option<string>,
                          keys: Option<seq<string>>, values: Option<seq<Option<string>>>, fuel: nat): Prepared
  {
    var plain := Render(plainTemplate, keys, values, fuel);
    var html := Render(htmlTemplate, keys, values, fuel);
    var subj := Render(subject, keys, values, fuel);
    if !plain.Rendered? then NotPrepared(plain)
    else if !html.Rendered? then NotPrepared(html)
    else if !subj.Rendered? then NotPrepared(subj)
    else Prepared(plain.text, html.text, subj.text)
  }

  /** The subject goes through the same keys and values as the two bodies. */
  lemma SubjectUsesSameBindings(plainTemplate: Option<string>, htmlTemplate: Option<string>, subject: Option<string>,
                                keys: Option<seq<string>>, values: Option<seq<Option<string>>>, fuel: nat)
    ensures var p := PrepareMessage(plainTemplate, htmlTemplate, subject, keys, values, fuel);
      p.Prepared? ==>
        (p.subject == Render(subject, keys, values, fuel).text &&
         p.plain == Render(plainTemplate, keys, values, fuel).text &&
         p.html == Render(htmlTemplate, keys, values, fuel).text)
  {
  }
}
