/**
 * The decoding transform (`JsonParser._transform`). A lone job is wrapped into
 * a one-element list; for each job the configured field (or the job itself) is
 * run through `JSON.parse`, the result is enriched, and collected; at the end an
 * array input pushes the array of decoded jobs and a lone input pushes the lone
 * decoded value, and the transform's callback is called.
 *
 * `JSON.parse`, `dref.get`, `dref.set`, `_.merge` and JavaScript truthiness are
 * opaque: they are the fields of a `Library` value. `dref.set` updates the
 * parsed object in place; here it returns the updated object.
 *
 * As written, the enrichment loop reuses the outer loop's index `i`: after a
 * parsed job the next index examined is `enrichWith.length + 1`, which can come
 * back to the same job forever. The outer loop is therefore run on `fuel`
 * iterations; `Spinning` is the outcome of a run that would go on.
 */
module JsonParsing {
  import opened Wrappers

  /** One entry of `enrichWith`: a path (a string), an object to merge, or anything else. */
  datatype Enrichment<Obj> = CopyPath(path: string) | MergeObject(source: Obj) | Ignored

  /** `opts.parseField` and `opts.enrichWith`; `None` is an absent option. */
  datatype ParserOptions<Obj> = ParserOptions(
    parseField: Option<string>,
    enrichWith: Option<seq<Enrichment<Obj>>>)

  /** The library calls the transform makes, as opaque functions. */
  datatype Library<!Obj> = Library(
    getPath: (Obj, string) -> Obj,
    setPath: (Obj, string, Obj) -> Obj,
    merge: (Obj, Obj) -> Obj,
    parse: Obj -> Option<Obj>,
    truthy: Obj -> bool)

  /** What `_transform` receives: an array of jobs, or one job. */
  datatype Input<Obj> = Batch(jobs: seq<Obj>) | Single(job: Obj)

  /** The two `parseError` emissions: a falsy field, or `JSON.parse` throwing. */
  datatype ParseError<Obj> = MissingField(job: Obj) | Unparsable(job: Obj)

  datatype Pushed<Obj> = PushedArray(values: seq<Obj>) | PushedValue(value: Obj)

  /**
   * How a call ends: it returns, having emitted `errors`, pushed at most one
   * value and called `cb` or not; or it is still looping when the fuel runs out.
   */
  datatype Outcome<Obj> =
    | Returned(errors: seq<ParseError<Obj>>, pushed: Option<Pushed<Obj>>, callbackCalled: bool)
    | Spinning

  /** `_.isArray(jobs) ? jobs : [jobs]`. */
  function JobList<Obj>(input: Input<Obj>): seq<Obj> {
    match input
    case Batch(jobs) => jobs
    case Single(job) => [job]
  }

  /** `toParse`: the field at `parseField` when that option is truthy, else the job. */
  function FieldOf<Obj>(opts: ParserOptions<Obj>, lib: Library<Obj>, job: Obj): Obj {
    if TruthyString(opts.parseField) then lib.getPath(job, opts.parseField.value) else job
  }

  /** One enrichment step on the parsed object. */
  function EnrichOne<Obj>(lib: Library<Obj>, parsed: Obj, job: Obj, e: Enrichment<Obj>): Obj {
    match e
    case CopyPath(path) => lib.setPath(parsed, path, lib.getPath(job, path))
    case MergeObject(source) => lib.merge(parsed, source)
    case Ignored => parsed
  }

  /** The parsed object after the entries `es`, applied first to last. */
  function Enriched<Obj>(lib: Library<Obj>, parsed: Obj, job: Obj, es: seq<Enrichment<Obj>>): Obj
    decreases |es|
  {
    if es == [] then parsed else EnrichOne(lib, Enriched(lib, parsed, job, es[..|es| - 1]), job, es[|es| - 1])
  }

  /** The end of the call: a push of the right shape when anything was decoded, then `cb()`. */
  function Finish<Obj>(isArray: bool, decoded: seq<Obj>, errors: seq<ParseError<Obj>>): (r: Outcome<Obj>)
    ensures r.Returned? && r.callbackCalled && r.errors == errors
    ensures r.pushed.None? <==> decoded == []
    ensures r.pushed.Some? ==> (r.pushed.value.PushedArray? <==> isArray)
  {
    var pushed :=
      if decoded == [] then None
      else if isArray then Some(PushedArray(decoded))
      else Some(PushedValue(decoded[0]));
    Returned(errors, pushed, true)
  }

  /**
   * The outer loop from index `i`, with `decoded` and `errors` collected so far
   * and `fuel` iterations left.
   */
  function Resume<Obj>(opts: ParserOptions<Obj>, lib: Library<Obj>, jobs: seq<Obj>, isArray: bool,
                       i: nat, decoded: seq<Obj>, errors: seq<ParseError<Obj>>, fuel: nat): Outcome<Obj>
    decreases fuel
  {
    if i >= |jobs| then
      Finish(isArray, decoded, errors)
    else if fuel == 0 then
      Spinning
    else
      var job := jobs[i];
      var toParse := FieldOf(opts, lib, job);
      if !lib.truthy(toParse) then
        Returned(errors + [MissingField(job)], None, false)
      else
        match lib.parse(toParse)
        case None =>
          Resume(opts, lib, jobs, isArray, i + 1, decoded, errors + [Unparsable(job)], fuel - 1)
        case Some(parsed) =>
          match opts.enrichWith
          case None =>
            Resume(opts, lib, jobs, isArray, i + 1, decoded + [parsed], errors, fuel - 1)
          case Some(es) =>
            Resume(opts, lib, jobs, isArray, |es| + 1, decoded + [Enriched(lib, parsed, job, es)], errors, fuel - 1)
  }

  /** `_transform(jobs, enc, cb)` run for at most `fuel` outer iterations. */
  function Transformed<Obj>(opts: ParserOptions<Obj>, lib: Library<Obj>, input: Input<Obj>, fuel: nat): Outcome<Obj> {
    Resume(opts, lib, JobList(input), input.Batch?, 0, [], [], fuel)
  }

  /**
   * `_transform`, with the source's two loops sharing the index `i`. At most
   * `fuel` iterations of the outer loop are run.
   */
  method Transform<Obj>(opts: ParserOptions<Obj>, lib: Library<Obj>, input: Input<Obj>, fuel: nat)
    returns (outcome: Outcome<Obj>)
    ensures outcome == Transformed(opts, lib, input, fuel)
  {
    var isArray := input.Batch?;
    var jobs := JobList(input);
    var decoded: seq<Obj> := [];
    var errors: seq<ParseError<Obj>> := [];
    var steps: nat := 0;
    var i: nat := 0;
    while i < |jobs|
      invariant steps <= fuel
      invariant Resume(opts, lib, jobs, isArray, i, decoded, errors, fuel - steps) == Transformed(opts, lib, input, fuel)
      decreases fuel - steps
    {
      if steps == fuel {
        return Spinning;
      }
      var currentJob := jobs[i];
      var toParse := FieldOf(opts, lib, currentJob);
      if !lib.truthy(toParse) {
        return Returned(errors + [MissingField(currentJob)], None, false);
      }
      var attempt := lib.parse(toParse);
      if attempt.None? {
        errors := errors + [Unparsable(currentJob)];
        i := i + 1;
        steps := steps + 1;
        continue;
      }
      var parsed := attempt.value;
      if opts.enrichWith.Some? {
        var es := opts.enrichWith.value;
        i := 0;
        while i < |es|
          invariant i <= |es|
          invariant parsed == Enriched(lib, attempt.value, currentJob, es[..i])
        {
          assert es[..i + 1][..i] == es[..i];
          parsed := EnrichOne(lib, parsed, currentJob, es[i]);
          i := i + 1;
        }
        assert es[..i] == es;
      }
      decoded := decoded + [parsed];
      i := i + 1;
      steps := steps + 1;
    }
    outcome := Finish(isArray, decoded, errors);
  }

  /** Enrichment in `enrichWith` order: the entries of `a` are applied before those of `b`. */
  lemma {:induction false} EnrichInOrder<Obj>(lib: Library<Obj>, parsed: Obj, job: Obj,
                                               a: seq<Enrichment<Obj>>, b: seq<Enrichment<Obj>>)
    ensures Enriched(lib, parsed, job, a + b) == Enriched(lib, Enriched(lib, parsed, job, a), job, b)
    decreases |b|
  {
    if b == [] {
      assert a + b == a;
    } else {
      var b' := b[..|b| - 1];
      assert (a + b)[..|a + b| - 1] == a + b';
      assert (a + b)[|a + b| - 1] == b[|b| - 1];
      EnrichInOrder(lib, parsed, job, a, b');
    }
  }

  /** The value a successfully parsed job contributes. */
  function DecodedValue<Obj>(opts: ParserOptions<Obj>, lib: Library<Obj>, parsed: Obj, job: Obj): Obj {
    match opts.enrichWith
    case None => parsed
    case Some(es) => Enriched(lib, parsed, job, es)
  }

  /**
   * A lone job is one iteration: a falsy field emits `parseError` and returns
   * without pushing or calling `cb`; a parse failure emits `parseError`, pushes
   * nothing and calls `cb`; otherwise the single decoded value itself (not a
   * one-element array) is pushed and `cb` is called.
   */
  lemma SingleJob<Obj>(opts: ParserOptions<Obj>, lib: Library<Obj>, job: Obj, fuel: nat)
    requires fuel >= 1
    ensures Transformed(opts, lib, Single(job), fuel) ==
      var toParse := FieldOf(opts, lib, job);
      if !lib.truthy(toParse) then
        Returned([MissingField(job)], None, false)
      else match lib.parse(toParse)
        case None => Returned([Unparsable(job)], None, true)
        case Some(parsed) => Returned([], Some(PushedValue(DecodedValue(opts, lib, parsed, job))), true)
  {
    var toParse := FieldOf(opts, lib, job);
    assert JobList(Single(job)) == [job];
    assert Transformed(opts, lib, Single(job), fuel) == Resume(opts, lib, [job], false, 0, [], [], fuel);
    if lib.truthy(toParse) {
      match lib.parse(toParse)
      case None =>
        assert [] + [Unparsable(job)] == [Unparsable(job)];
        assert Transformed(opts, lib, Single(job), fuel) == Resume(opts, lib, [job], false, 1, [], [Unparsable(job)], fuel - 1);
      case Some(parsed) =>
        match opts.enrichWith
        case None =>
          assert [] + [parsed] == [parsed];
          assert Transformed(opts, lib, Single(job), fuel) == Resume(opts, lib, [job], false, 1, [parsed], [], fuel - 1);
        case Some(es) =>
          var v := Enriched(lib, parsed, job, es);
          assert [] + [v] == [v];
          assert Transformed(opts, lib, Single(job), fuel) == Resume(opts, lib, [job], false, |es| + 1, [v], [], fuel - 1);
    }
  }

  /**
   * Whatever the input, a returning call pushes at most once, and a push has
   * the input's shape (a non-empty array for an array, a lone value otherwise);
   * `cb` is skipped exactly when the call returned at a falsy field, which is
   * then the last error emitted and nothing is pushed. Errors are only ever
   * appended, and what was decoded before is a prefix of what is pushed.
   */
  lemma {:induction false} ResumeShape<Obj>(opts: ParserOptions<Obj>, lib: Library<Obj>, jobs: seq<Obj>,
                                            isArray: bool, i: nat, decoded: seq<Obj>,
                                            errors: seq<ParseError<Obj>>, fuel: nat)
    requires forall k :: 0 <= k < |errors| ==> errors[k].Unparsable?
    ensures var r := Resume(opts, lib, jobs, isArray, i, decoded, errors, fuel);
      r.Returned? ==>
        && errors <= r.errors
        && (!r.callbackCalled <==> |r.errors| > 0 && r.errors[|r.errors| - 1].MissingField?)
        && (!r.callbackCalled ==> r.pushed.None?)
        && (r.callbackCalled ==> forall k :: 0 <= k < |r.errors| ==> r.errors[k].Unparsable?)
        && (r.pushed.Some? ==> (r.pushed.value.PushedArray? <==> isArray))
        && (r.pushed.Some? && isArray ==> |r.pushed.value.values| > 0 && decoded <= r.pushed.value.values)
        && (r.callbackCalled && decoded != [] ==> r.pushed.Some?)
    decreases fuel
  {
    if i < |jobs| && fuel > 0 {
      var job := jobs[i];
      var toParse := FieldOf(opts, lib, job);
      if lib.truthy(toParse) {
        match lib.parse(toParse)
        case None =>
          ResumeShape(opts, lib, jobs, isArray, i + 1, decoded, errors + [Unparsable(job)], fuel - 1);
        case Some(parsed) =>
          match opts.enrichWith
          case None =>
            ResumeShape(opts, lib, jobs, isArray, i + 1, decoded + [parsed], errors, fuel - 1);
          case Some(es) =>
            ResumeShape(opts, lib, jobs, isArray, |es| + 1, decoded + [Enriched(lib, parsed, job, es)], errors, fuel - 1);
      }
    }
  }

  lemma TransformShape<Obj>(opts: ParserOptions<Obj>, lib: Library<Obj>, input: Input<Obj>, fuel: nat)
    ensures var r := Transformed(opts, lib, input, fuel);
      r.Returned? ==>
        && (!r.callbackCalled <==> |r.errors| > 0 && r.errors[|r.errors| - 1].MissingField?)
        && (!r.callbackCalled ==> r.pushed.None?)
        && (r.pushed.Some? ==> (r.pushed.value.PushedArray? <==> input.Batch?))
        && (r.pushed.Some? && input.Batch? ==> |r.pushed.value.values| > 0)
  {
    ResumeShape(opts, lib, JobList(input), input.Batch?, 0, [], [], fuel);
  }

  /**
   * A reference decoding of a job list that ignores `enrichWith`: jobs are taken
   * front to back, a parse failure is recorded and skipped, and a falsy field
   * aborts with its error last.
   */
  datatype Decoding<Obj> = Decoding(decoded: seq<Obj>, errors: seq<ParseError<Obj>>, aborted: bool)

  function DecodeEach<Obj>(opts: ParserOptions<Obj>, lib: Library<Obj>, jobs: seq<Obj>): Decoding<Obj>
    decreases |jobs|
  {
    if jobs == [] then
      Decoding([], [], false)
    else
      var job := jobs[0];
      var toParse := FieldOf(opts, lib, job);
      if !lib.truthy(toParse) then
        Decoding([], [MissingField(job)], true)
      else
        var rest := DecodeEach(opts, lib, jobs[1..]);
        match lib.parse(toParse)
        case None => rest.(errors := [Unparsable(job)] + rest.errors)
        case Some(parsed) => rest.(decoded := [parsed] + rest.decoded)
  }

  /** The outcome the reference decoding stands for. */
  function Reference<Obj>(opts: ParserOptions<Obj>, lib: Library<Obj>, input: Input<Obj>): Outcome<Obj> {
    var d := DecodeEach(opts, lib, JobList(input));
    if d.aborted then Returned(d.errors, None, false) else Finish(input.Batch?, d.decoded, d.errors)
  }

  /** Without `enrichWith` the outer loop visits every job once, from `i` on. */
  lemma {:induction false} ResumePlain<Obj>(opts: ParserOptions<Obj>, lib: Library<Obj>, jobs: seq<Obj>,
                                            isArray: bool, i: nat, decoded: seq<Obj>,
                                            errors: seq<ParseError<Obj>>, fuel: nat)
    requires opts.enrichWith.None?
    requires i <= |jobs| && fuel >= |jobs| - i
    ensures var d := DecodeEach(opts, lib, jobs[i..]);
      Resume(opts, lib, jobs, isArray, i, decoded, errors, fuel) ==
        if d.aborted then Returned(errors + d.errors, None, false)
        else Finish(isArray, decoded + d.decoded, errors + d.errors)
    decreases |jobs| - i
  {
    if i == |jobs| {
      assert jobs[i..] == [];
      assert decoded + [] == decoded && errors + [] == errors;
    } else {
      var job := jobs[i];
      var toParse := FieldOf(opts, lib, job);
      assert jobs[i..][0] == job && jobs[i..][1..] == jobs[i + 1..];
      if lib.truthy(toParse) {
        var rest := DecodeEach(opts, lib, jobs[i + 1..]);
        match lib.parse(toParse)
        case None =>
          ResumePlain(opts, lib, jobs, isArray, i + 1, decoded, errors + [Unparsable(job)], fuel - 1);
          assert errors + [Unparsable(job)] + rest.errors == errors + ([Unparsable(job)] + rest.errors);
        case Some(parsed) =>
          ResumePlain(opts, lib, jobs, isArray, i + 1, decoded + [parsed], errors, fuel - 1);
          assert decoded + [parsed] + rest.decoded == decoded + ([parsed] + rest.decoded);
      }
    }
  }

  /**
   * Without `enrichWith`, and given one iteration per job, the transform is the
   * reference decoding: every job is examined once, in order.
   */
  lemma TransformWithoutEnrichment<Obj>(opts: ParserOptions<Obj>, lib: Library<Obj>, input: Input<Obj>, fuel: nat)
    requires opts.enrichWith.None? && fuel >= |JobList(input)|
    ensures Transformed(opts, lib, input, fuel) == Reference(opts, lib, input)
  {
    var jobs := JobList(input);
    ResumePlain(opts, lib, jobs, input.Batch?, 0, [], [], fuel);
    assert jobs[0..] == jobs;
    var d := DecodeEach(opts, lib, jobs);
    assert [] + d.decoded == d.decoded && [] + d.errors == d.errors;
  }

  /**
   * The shared index: with `enrichWith` of length `n`, a job at index `n + 1`
   * that decodes sends the outer loop back to index `n + 1`, so the call never
   * returns, however many iterations it is given.
   */
  lemma {:induction false} RevisitSpins<Obj>(opts: ParserOptions<Obj>, lib: Library<Obj>, jobs: seq<Obj>,
                                             isArray: bool, decoded: seq<Obj>,
                                             errors: seq<ParseError<Obj>>, fuel: nat)
    requires opts.enrichWith.Some?
    requires |opts.enrichWith.value| + 1 < |jobs|
    requires lib.truthy(FieldOf(opts, lib, jobs[|opts.enrichWith.value| + 1]))
    requires lib.parse(FieldOf(opts, lib, jobs[|opts.enrichWith.value| + 1])).Some?
    ensures Resume(opts, lib, jobs, isArray, |opts.enrichWith.value| + 1, decoded, errors, fuel) == Spinning
    decreases fuel
  {
    if fuel > 0 {
      var es := opts.enrichWith.value;
      var job := jobs[|es| + 1];
      var parsed := lib.parse(FieldOf(opts, lib, job)).value;
      RevisitSpins(opts, lib, jobs, isArray, decoded + [Enriched(lib, parsed, job, es)], errors, fuel - 1);
    }
  }

  /** The options `parseJson` starts from: parse `body`, copy `id` across. */
  function DefaultOptions<Obj>(): (opts: ParserOptions<Obj>)
    ensures opts.enrichWith.Some? && |opts.enrichWith.value| == 1
  {
    ParserOptions(Some("body"), Some([CopyPath("id")]))
  }

  /**
   * With those options an array whose first and third jobs decode never
   * returns: after the first job the next index is 2, and index 2 leads back
   * to itself. The job at index 1 is never examined.
   */
  lemma DefaultOptionsSpin<Obj>(lib: Library<Obj>, jobs: seq<Obj>, fuel: nat)
    requires |jobs| >= 3
    requires lib.truthy(FieldOf(DefaultOptions(), lib, jobs[0]))
    requires lib.parse(FieldOf(DefaultOptions(), lib, jobs[0])).Some?
    requires lib.truthy(FieldOf(DefaultOptions(), lib, jobs[2]))
    requires lib.parse(FieldOf(DefaultOptions(), lib, jobs[2])).Some?
    ensures Transformed(DefaultOptions(), lib, Batch(jobs), fuel) == Spinning
  {
    var opts: ParserOptions<Obj> := DefaultOptions();
    var es := opts.enrichWith.value;
    if fuel > 0 {
      var parsed := lib.parse(FieldOf(opts, lib, jobs[0])).value;
      var v := Enriched(lib, parsed, jobs[0], es);
      assert Transformed(opts, lib, Batch(jobs), fuel) == Resume(opts, lib, jobs, true, 2, [] + [v], [], fuel - 1);
      RevisitSpins(opts, lib, jobs, true, [] + [v], [], fuel - 1);
    }
  }
}
