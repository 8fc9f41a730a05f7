/** waterquality/models.py: the slugs `Protocol` and `SamplingEvent` give
    themselves on their first save, and the names the sampling records
    render. `slugify` is a parameter. */
module SamplingModels {
  import opened Text

  /** A calendar date, as `datetime` guarantees it. */
  datatype Date = Date(year: nat, month: nat, day: nat)

  predicate ValidDate(d: Date) {
    1 <= d.year <= 9999 && 1 <= d.month <= 12 && 1 <= d.day <= 31
  }

  /** `strftime('%Y-%m-%d')`. */
  function DateText(d: Date): (r: string)
    ensures |r| >= 10
  {
    ZeroPad(NatToString(d.year), 4) + "-" + ZeroPad(NatToString(d.month), 2) + "-" + ZeroPad(NatToString(d.day), 2)
  }

  /** The slug after `save()`: computed from `source` when it is empty, kept
      as it is otherwise. */
  function AssignSlug(slug: string, source: string, slugify: string -> string): (r: string)
    ensures slug != [] ==> r == slug
    ensures r == [] ==> slug == [] && slugify(source) == []
  {
    if slug == [] then slugify(source) else slug
  }

  /** A slug, once set, survives any later save, whatever the fields it was
      computed from have become. */
  lemma SlugKept(slug: string, source: string, slugify: string -> string)
    requires slug != []
    ensures AssignSlug(slug, source, slugify) == slug
  {
  }

  /** Saving twice assigns once: the second save keeps the first save's slug,
      as long as `slugify` produced a non-empty one. */
  lemma SlugAssignedOnce(slug: string, first: string, later: string, slugify: string -> string)
    requires slug != [] || slugify(first) != []
    ensures AssignSlug(AssignSlug(slug, first, slugify), later, slugify) == AssignSlug(slug, first, slugify)
  {
  }

  /** When `slugify` produces nothing (a name of punctuation only), the slug
      stays empty and the next save computes it again from the current
      fields. */
  lemma EmptySlugRecomputed(first: string, later: string, slugify: string -> string)
    requires slugify(first) == []
    ensures AssignSlug(AssignSlug([], first, slugify), later, slugify) == slugify(later)
  {
  }

  /** The text `SamplingEvent` slugifies: location name, "-", date. */
  function EventSlugSource(locationName: string, executedAt: Date): string {
    locationName + "-" + DateText(executedAt)
  }

  /** `SamplingEvent.__str__`. */
  function EventName(locationName: string, executedAt: Date): (r: string)
    ensures |r| == 16 + |locationName| + |DateText(executedAt)|
    ensures r[..12] == "Sampling at " && r[12..12 + |locationName|] == locationName
    ensures r[|r| - |DateText(executedAt)|..] == DateText(executedAt)
  {
    var head := "Sampling at " + locationName + " on ";
    assert head[..12] == "Sampling at " && head[12..12 + |locationName|] == locationName;
    head + DateText(executedAt)
  }

  /** `Sample.__str__`: event slug, target parameters and replica number. */
  function SampleName(eventSlug: string, targetParameters: string, replicaNumber: int): (r: string)
    ensures |r| >= |eventSlug| + |targetParameters| + 4
    ensures r[..|eventSlug|] == eventSlug && r[|eventSlug|] == '-'
    ensures r[|eventSlug| + 1..|eventSlug| + 1 + |targetParameters|] == targetParameters
  {
    eventSlug + "-" + targetParameters + "-R" + IntToString(replicaNumber)
  }

  /** The date text is ten characters, year, month and day in that order,
      and reads back as the date. */
  lemma DateTextReadsBack(d: Date)
    requires ValidDate(d) && d.year >= 1000
    ensures var t := DateText(d);
      |t| == 10 && t[4] == '-' && t[7] == '-'
      && AllDigits(t[..4]) && AllDigits(t[5..7]) && AllDigits(t[8..])
      && DigitsValue(t[..4]) == d.year && DigitsValue(t[5..7]) == d.month && DigitsValue(t[8..]) == d.day
  {
    var y := ZeroPad(NatToString(d.year), 4);
    var m := ZeroPad(NatToString(d.month), 2);
    var dd := ZeroPad(NatToString(d.day), 2);
    assert Pow10(2) == 100 && Pow10(4) == 10000;
    NatToStringLength(d.year, 4);
    NatToStringLength(d.month, 2);
    NatToStringLength(d.day, 2);
    NatToStringValue(d.year);
    NatToStringValue(d.month);
    NatToStringValue(d.day);
    ZeroPadValue(NatToString(d.year), 4);
    ZeroPadValue(NatToString(d.month), 2);
    ZeroPadValue(NatToString(d.day), 2);
    var t := DateText(d);
    assert t == y + "-" + m + "-" + dd;
    assert t[..4] == y && t[5..7] == m && t[8..] == dd;
  }

  /** The name of an event shows the location name and the date text. */
  lemma EventNameParts(locationName: string, executedAt: Date)
    ensures var n := EventName(locationName, executedAt);
      StartsWith(n, "Sampling at " + locationName + " on ")
      && EndsWith(n, DateText(executedAt))
      && |n| == 16 + |locationName| + |DateText(executedAt)|
  {
    var n := EventName(locationName, executedAt);
    assert n == ("Sampling at " + locationName + " on ") + DateText(executedAt);
  }

  /** The key `(sampling_event, target_parameters, replica_number)` that the
      table keeps unique. */
  datatype SampleKey = SampleKey(eventSlug: string, targetParameters: string, replicaNumber: int)

  /** Two different keys can still render the same name, because slugs and
      target parameters may themselves contain "-". */
  lemma SampleNamesMayCollide()
    ensures SampleKey("a-b", "c", 0) != SampleKey("a", "b-c", 0)
    ensures SampleName("a-b", "c", 0) == SampleName("a", "b-c", 0)
  {
    assert IntToString(0) == "0";
  }

  /** A protocol: the slug is assigned from the method name on first save. */
  class Protocol {
    var methodName: string
    var slug: string

    constructor (methodName: string)
      ensures this.methodName == methodName && slug == []
    {
      this.methodName := methodName;
      slug := [];
    }

    method Save(slugify: string -> string)
      modifies this
      ensures slug == AssignSlug(old(slug), methodName, slugify)
      ensures methodName == old(methodName)
    {
      if slug == [] {
        slug := slugify(methodName);
      }
    }
  }

  /** A sampling event: the slug is assigned from location name and date on
      first save. */
  class SamplingEvent {
    var locationName: string
    var executedAt: Date
    var slug: string

    constructor (locationName: string, executedAt: Date)
      ensures this.locationName == locationName && this.executedAt == executedAt && slug == []
    {
      this.locationName := locationName;
      this.executedAt := executedAt;
      slug := [];
    }

    method Save(slugify: string -> string)
      modifies this
      ensures slug == AssignSlug(old(slug), EventSlugSource(locationName, executedAt), slugify)
      ensures locationName == old(locationName) && executedAt == old(executedAt)
    {
      if slug == [] {
        slug := slugify(locationName + "-" + DateText(executedAt));
      }
    }
  }

  /** A sample; `replica_number` defaults to 0. */
  class Sample {
    var eventSlug: string
    var targetParameters: string
    var replicaNumber: int

    constructor (eventSlug: string, targetParameters: string)
      ensures this.eventSlug == eventSlug && this.targetParameters == targetParameters && replicaNumber == 0
    {
      this.eventSlug := eventSlug;
      this.targetParameters := targetParameters;
      replicaNumber := 0;
    }

    function Key(): SampleKey
      reads this
    {
      SampleKey(eventSlug, targetParameters, replicaNumber)
    }
  }
}
