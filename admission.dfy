/** Admission arithmetic of the uploader (src/components/FileUploader.js): how the
    `max` and `multiple` properties are normalised on every render, how many files
    may still be added, the drag-over accept/deny predicate and its wording, and the
    count gate of the reducer's `add` action. */
module Admission {
  import opened Common

  /** The `max` property as the component receives it: `Unset` covers `undefined`
      and anything `Number(...)` turns into NaN. */
  datatype RawMax = Unset | Num(n: int)

  /** A number that may be `Infinity`. */
  datatype Limit = Infinite | Finite(n: int)

  /** `n <= l` */
  predicate AtMost(n: int, l: Limit) {
    l.Infinite? || n <= l.n
  }

  /** `l > n` */
  predicate Exceeds(l: Limit, n: int) {
    l.Infinite? || l.n > n
  }

  /** `Math.max(Number(max), 0) || Infinity`: missing, zero or negative means unbounded. */
  function NormaliseMax(raw: RawMax): (m: Limit)
    ensures m.Infinite? <==> raw.Unset? || raw.n <= 0
    ensures m.Finite? ==> m.n == raw.n > 0
  {
    match raw
    case Unset => Infinite
    case Num(n) => if n > 0 then Finite(n) else Infinite
  }

  /** The settings in force for one render: the cap and whether a drop may carry several files. */
  datatype Settings = Settings(max: Limit, multiple: bool)

  /** Normalisation of `max` and `multiple` for a list of `count` files. `multiple ==
      None` is an unset property; `Some(b)` is `Boolean(multiple)`. Several files per
      drop are allowed only if enabled and the cap leaves room for more than one more
      file; an unbounded single-file uploader is capped at one file more than it holds. */
  function Normalise(rawMax: RawMax, multiple: Option<bool>, count: nat): (s: Settings)
    ensures s.multiple <==> multiple != Some(false) && Exceeds(NormaliseMax(rawMax), count + 1)
    ensures s.max == if NormaliseMax(rawMax).Infinite? && !s.multiple then Finite(count + 1)
                     else NormaliseMax(rawMax)
  {
    var max := NormaliseMax(rawMax);
    var many := (multiple.None? || multiple.value) && Exceeds(max, count + 1);
    Settings(if max.Infinite? && !many then Finite(count + 1) else max, many)
  }

  /** `max - files.length` (unbounded stays unbounded). */
  function Remaining(max: Limit, count: nat): (r: Limit)
    ensures r.Infinite? <==> max.Infinite?
    ensures r.Finite? ==> r.n + count == max.n
  {
    match max
    case Infinite => Infinite
    case Finite(m) => Finite(m - count)
  }

  /** The normalised settings always leave room: with several files allowed at least
      two more fit, and an unbounded cap is only kept together with `multiple`. */
  lemma NormaliseRoom(rawMax: RawMax, multiple: Option<bool>, count: nat)
    ensures var s := Normalise(rawMax, multiple, count);
      (s.multiple ==> Exceeds(Remaining(s.max, count), 1)) &&
      (s.max.Infinite? ==> s.multiple) &&
      (NormaliseMax(rawMax).Infinite? && !s.multiple ==> Remaining(s.max, count) == Finite(1))
  {
  }

  /** The drag-over predicate: `n` dragged files are accepted iff they fit in the
      remaining room and either several files are allowed or exactly one is dragged. */
  predicate DropAccepted(n: nat, remaining: Limit, multiple: bool) {
    AtMost(n, remaining) && (multiple || n == 1)
  }

  /** The count gate of the reducer's `add`: the concatenated list would exceed `max`. */
  predicate Overflows(count: nat, incoming: nat, max: Limit) {
    !AtMost(count + incoming, max)
  }

  /** The drag-over verdict and the reducer's gate agree: an accepted drop never
      overflows, and a drop that does not overflow is accepted unless it carries
      several files while only one is allowed. */
  lemma DropAcceptedIffFits(n: nat, count: nat, max: Limit, multiple: bool)
    ensures DropAccepted(n, Remaining(max, count), multiple)
        <==> !Overflows(count, n, max) && (multiple || n == 1)
  {
  }

  /** The message shown on a denied drag. */
  datatype DropMessage =
    | SelectJust(remaining: Limit, plural: bool)  // "Please select just N file(s)!"
    | Enough(count: nat)                          // "N files is enough!"

  /** Wording of a denied drag: a non-zero remaining room is quoted, pluralised iff it
      exceeds one; with no room left the current count is quoted instead. */
  function DeniedMessage(remaining: Limit, count: nat): (m: DropMessage)
    ensures m.Enough? <==> remaining == Finite(0)
    ensures m.Enough? ==> m.count == count
    ensures m.SelectJust? ==> m.remaining == remaining && (m.plural <==> Exceeds(remaining, 1))
  {
    if remaining == Finite(0) then Enough(count)
    else SelectJust(remaining, Exceeds(remaining, 1))
  }

  /** `String(n)` for a possibly infinite number. */
  function LimitToString(l: Limit): string {
    match l
    case Infinite => "Infinity"
    case Finite(n) => IntToString(n)
  }

  /** The text of a denied-drag message. */
  function MessageText(m: DropMessage): (t: string)
    ensures m.SelectJust? ==> "Please select just " <= t && |t| >= 26
    ensures m.SelectJust? ==> (t[|t| - 2] == 's' <==> m.plural)
    ensures m.Enough? ==> |t| >= 18 && t[|t| - 17..] == " files is enough!"
  {
    match m
    case SelectJust(r, plural) =>
      "Please select just " + LimitToString(r) + " file" + (if plural then "s" else "") + "!"
    case Enough(n) => IntToString(n) + " files is enough!"
  }

  /** What the drop area shows while files are dragged over it: the accepted marker
      ("Drop it!") or the denial wording. */
  function DragOverMessage(n: nat, settings: Settings, count: nat): (r: Option<DropMessage>)
    ensures r.None? <==> DropAccepted(n, Remaining(settings.max, count), settings.multiple)
    ensures r.Some? ==> r.value == DeniedMessage(Remaining(settings.max, count), count)
  {
    var remaining := Remaining(settings.max, count);
    if DropAccepted(n, remaining, settings.multiple) then None
    else Some(DeniedMessage(remaining, count))
  }

  /** The "enough" wording quotes the current count in decimal, and the number
      in front of " files is enough!" reads back as that count. */
  lemma EnoughQuotesCount(count: nat)
    ensures MessageText(Enough(count)) == NatToString(count) + " files is enough!"
    ensures var t := MessageText(Enough(count));
      (forall i :: 0 <= i < |t| - 17 ==> IsDigit(t[i])) &&
      DigitsValue(t[..|t| - 17]) == count
  {
    var t := MessageText(Enough(count));
    assert t[..|t| - 17] == NatToString(count);
    NatToStringRoundTrip(count);
  }

  /** The "select just" wording quotes the remaining room between "Please select just "
      and " file"; a finite, non-negative room is quoted in decimal and reads back as
      that room. */
  lemma SelectJustQuotesRemaining(remaining: Limit, plural: bool)
    ensures var t := MessageText(SelectJust(remaining, plural));
      var k := |t| - (if plural then 7 else 6);
      19 <= k && t[19..k] == LimitToString(remaining) && t[k..] == (if plural then " files!" else " file!")
    ensures remaining.Finite? && remaining.n >= 0 ==>
      var t := MessageText(SelectJust(remaining, plural));
      var k := |t| - (if plural then 7 else 6);
      (forall i :: 19 <= i < k ==> IsDigit(t[i])) && DigitsValue(t[19..k]) == remaining.n
  {
    var t := MessageText(SelectJust(remaining, plural));
    var q := LimitToString(remaining);
    var tail := if plural then " files!" else " file!";
    assert t == "Please select just " + q + tail;
    var k := |t| - |tail|;
    assert t[19..k] == q;
    assert t[k..] == tail;
    if remaining.Finite? && remaining.n >= 0 {
      assert q == NatToString(remaining.n);
      NatToStringRoundTrip(remaining.n);
    }
  }

  /** With `multiple` disabled and no cap, one more file is always admissible: the cap
      follows the list, one file more than it holds, whatever that count is. */
  lemma SingleModeAdmitsOneMore(count: nat)
    ensures var s := Normalise(Unset, Some(false), count);
      !s.multiple && DropAccepted(1, Remaining(s.max, count), s.multiple) &&
      !Overflows(count, 1, s.max) && Overflows(count, 2, s.max)
  {
  }
}
