/**
 * The rule-based build check (`backend/validation_engine.py`): keyword
 * tests on one lower-cased text made from every part's name and specs.
 */
module Validation {
  import opened Text
  import opened Records

  const NoPowerWarning: string := "No obvious power source detected (battery, USB, adapter)."
  const MixedVoltageWarning: string := "Mixed voltages (3.3V and 5V) detected. Ensure logic level shifting or regulation is used."
  const NoMicrocontrollerWarning: string := "No common microcontroller detected. Ensure this is intended."

  const PowerKeywords: seq<string> := ["battery", "usb", "power supply", "adapter", "plug"]
  const MicrocontrollerKeywords: seq<string> := ["arduino", "esp32", "esp8266", "stm32", "raspberry", "pico", "attiny"]

  /** One part's contribution: lower-cased name, a space, lower-cased specs; missing fields read as empty. */
  function PartText(p: Dict): string {
    Lower(Get(p, "name", "")) + " " + Lower(Get(p, "specs", ""))
  }

  /** The search text: the parts' contributions joined by single spaces. */
  function PartsText(parts: seq<Dict>): string {
    Join(" ", seq(|parts|, i requires 0 <= i < |parts| => PartText(parts[i])))
  }

  /** `any(x in text for x in keywords)`. */
  predicate AnyIn(keywords: seq<string>, text: string) {
    exists k :: 0 <= k < |keywords| && Contains(text, keywords[k])
  }

  predicate MixedVoltage(text: string) {
    Contains(text, "3.3v") && Contains(text, "5v")
  }

  /** The place of each warning in the fixed order. */
  function Rank(w: string): int {
    if w == NoPowerWarning then 0
    else if w == MixedVoltageWarning then 1
    else if w == NoMicrocontrollerWarning then 2
    else 3
  }

  /**
   * `validate_build`: the power warning exactly when no power keyword
   * occurs, the mixed-voltage warning exactly when both "3.3v" and "5v"
   * occur, the microcontroller warning exactly when no microcontroller
   * keyword occurs; no other warnings, none twice, in that order.
   */
  method ValidateBuild(parts: seq<Dict>) returns (warnings: seq<string>)
    ensures var text := PartsText(parts);
      && (NoPowerWarning in warnings <==> !AnyIn(PowerKeywords, text))
      && (MixedVoltageWarning in warnings <==> MixedVoltage(text))
      && (NoMicrocontrollerWarning in warnings <==> !AnyIn(MicrocontrollerKeywords, text))
    ensures |warnings| <= 3
    ensures forall i :: 0 <= i < |warnings| ==> Rank(warnings[i]) < 3
    ensures forall i, j :: 0 <= i < j < |warnings| ==> Rank(warnings[i]) < Rank(warnings[j])
    ensures parts == [] ==> warnings == [NoPowerWarning, NoMicrocontrollerWarning]
  {
    warnings := [];
    var partsText := PartsText(parts);
    var noPower, mixed, noMicrocontroller :=
      !AnyIn(PowerKeywords, partsText), MixedVoltage(partsText), !AnyIn(MicrocontrollerKeywords, partsText);
    if noPower {
      warnings := warnings + [NoPowerWarning];
    }
    if mixed {
      warnings := warnings + [MixedVoltageWarning];
    }
    if noMicrocontroller {
      warnings := warnings + [NoMicrocontrollerWarning];
    }
    WarningsInOrder(noPower, mixed, noMicrocontroller, warnings);
    if parts == [] {
      EmptyTextMatchesNothing();
    }
  }

  /** The warnings chosen by three tests, appended in order: each present exactly when its test holds, ranked strictly increasing. */
  lemma WarningsInOrder(noPower: bool, mixed: bool, noMicrocontroller: bool, warnings: seq<string>)
    requires warnings == (if noPower then [NoPowerWarning] else [])
      + (if mixed then [MixedVoltageWarning] else [])
      + (if noMicrocontroller then [NoMicrocontrollerWarning] else [])
    ensures NoPowerWarning in warnings <==> noPower
    ensures MixedVoltageWarning in warnings <==> mixed
    ensures NoMicrocontrollerWarning in warnings <==> noMicrocontroller
    ensures |warnings| <= 3
    ensures forall i :: 0 <= i < |warnings| ==> Rank(warnings[i]) < 3
    ensures forall i, j :: 0 <= i < j < |warnings| ==> Rank(warnings[i]) < Rank(warnings[j])
  {
    WarningRanks();
  }

  /** The three warnings (of different lengths) take the first three ranks, so they are distinct. */
  lemma WarningRanks()
    ensures Rank(NoPowerWarning) == 0
    ensures Rank(MixedVoltageWarning) == 1
    ensures Rank(NoMicrocontrollerWarning) == 2
  {
    assert |NoPowerWarning| == 57 && |MixedVoltageWarning| == 89 && |NoMicrocontrollerWarning| == 60;
  }

  /** With no parts the text is empty, and no keyword occurs in it. */
  lemma EmptyTextMatchesNothing()
    ensures PartsText([]) == ""
    ensures !AnyIn(PowerKeywords, "") && !AnyIn(MicrocontrollerKeywords, "") && !MixedVoltage("")
  {
  }

  /** A keyword in any part's name, in any letter case, is found in the search text. */
  lemma NameKeywordFound(parts: seq<Dict>, i: int, keywords: seq<string>, k: int)
    requires 0 <= i < |parts| && 0 <= k < |keywords|
    requires "name" in parts[i] && Contains(Lower(parts[i]["name"]), keywords[k])
    ensures AnyIn(keywords, PartsText(parts))
  {
    var xs := seq(|parts|, j requires 0 <= j < |parts| => PartText(parts[j]));
    var name := Lower(parts[i]["name"]);
    assert xs[i][..|name|] == name;
    ContainsInSlice(xs[i], 0, |name|, keywords[k]);
    JoinContainsPiece(" ", xs, i, keywords[k]);
  }

  /** A keyword in any part's specs, in any letter case, is found in the search text. */
  lemma SpecsKeywordFound(parts: seq<Dict>, i: int, keywords: seq<string>, k: int)
    requires 0 <= i < |parts| && 0 <= k < |keywords|
    requires "specs" in parts[i] && Contains(Lower(parts[i]["specs"]), keywords[k])
    ensures AnyIn(keywords, PartsText(parts))
  {
    var xs := seq(|parts|, j requires 0 <= j < |parts| => PartText(parts[j]));
    var specs := Lower(parts[i]["specs"]);
    assert xs[i] == Lower(Get(parts[i], "name", "")) + " " + specs;
    assert xs[i][|xs[i]| - |specs|..|xs[i]|] == specs;
    ContainsInSlice(xs[i], |xs[i]| - |specs|, |xs[i]|, keywords[k]);
    JoinContainsPiece(" ", xs, i, keywords[k]);
  }
}
