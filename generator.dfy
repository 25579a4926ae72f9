/**
 * The vueg generator run by `go generate` (main.go:21-71, must at main.go:105-109):
 * for each Vue template, in the order the directory listing gives them, it
 * guards against overwriting the invoking file, reads and minifies the template,
 * parses it, finds the payload element, renders it and writes a Go file that
 * declares one constant holding that markup. The first error ends the run.
 */
module Generator {
  import opened Bytes
  import opened Wrappers
  import opened Naming
  import opened Html

  /** The environment go generate supplies: $GOFILE and $GOPACKAGE (main.go:22-23). */
  datatype Config = Config(gofile: Bytes, gopackage: Bytes)

  /** The Go file the generator emits (main.go:55-61): package, header comment, one constant. */
  datatype GoSource = GoSource(packageName: Bytes, headerComment: Bytes, constName: Bytes, value: Bytes)

  /**
   * The calls the generator makes into code and devices outside this model. Each
   * is a function of its arguments; None or false is the error the call returns.
   */
  datatype Io = Io(
    open: Bytes -> Option<Bytes>,              // os.Open of a template and the bytes it holds (main.go:39)
    minify: Bytes -> Option<Bytes>,            // the text/html minifier keeping end tags (main.go:25-26, 44)
    parseFragment: Bytes -> Option<seq<Node>>, // html.ParseFragment under a div context (main.go:74-82)
    render: Node -> Bytes,                     // html.Render, whose error the source ignores (main.go:52)
    create: Bytes -> bool,                     // os.Create of the output file (main.go:64)
    writeSource: (Bytes, GoSource) -> bool,    // jen rendering the source into that file (main.go:66)
    close: Bytes -> bool                       // closing the output file (main.go:68)
  )

  /** The errors `must` and `panic` turn into an abort, each with the file it concerns. */
  datatype Failure =
    | FileConflict(file: Bytes)       // main.go:34-35
    | OpenFailed(template: Bytes)     // main.go:39-40
    | MinifyFailed(template: Bytes)   // main.go:44-45
    | ParseFailed(template: Bytes)    // main.go:75-80
    | NoChildElement(template: Bytes) // main.go:100
    | EmptyBaseName(template: Bytes)  // main.go:60, slicing an empty string
    | CreateFailed(file: Bytes)       // main.go:64-65
    | RenderFailed(file: Bytes)       // main.go:66-67
    | CloseFailed(file: Bytes)        // main.go:68-69

  /**
   * What the run did to the file system: a template was opened, an output file
   * was created (and so emptied), an output file received a whole source and was closed.
   */
  datatype Effect =
    | Opened(template: Bytes)
    | Created(file: Bytes)
    | Written(file: Bytes, source: GoSource)

  /** How one template, or a whole run, ended and what it did on the way. */
  datatype Step = Step(outcome: Outcome<Failure>, effects: seq<Effect>)

  /** The text around the template name in the header comment (main.go:56). */
  const HeaderLead: Bytes := Ascii("The vueg command generated this source from file: ")
  const HeaderTail: Bytes := Ascii(", do not edit.")

  /** The header comment recording which template a source came from (main.go:56). */
  function HeaderComment(template: Bytes): (comment: Bytes)
    ensures |comment| == |HeaderLead| + |template| + |HeaderTail|
    ensures comment[..|HeaderLead|] == HeaderLead
    ensures comment[|HeaderLead|..|HeaderLead| + |template|] == template
    ensures comment[|HeaderLead| + |template|..] == HeaderTail
  {
    HeaderLead + template + HeaderTail
  }

  /** The node forest of a template: opened, minified and parsed, or None when one of these fails. */
  function Parsed(io: Io, template: Bytes): (nodes: Option<seq<Node>>)
    ensures nodes.Some? ==> io.open(template).Some? && io.minify(io.open(template).value).Some?
  {
    match io.open(template)
    case None => None
    case Some(raw) =>
      match io.minify(raw)
      case None => None
      case Some(minified) => io.parseFragment(minified)
  }

  /** The output files a sequence of effects has completely written, in order. */
  function WrittenFiles(effects: seq<Effect>): (files: seq<Bytes>)
  {
    if effects == [] then []
    else
      var prefix := WrittenFiles(effects[..|effects| - 1]);
      match effects[|effects| - 1]
      case Written(file, _) => prefix + [file]
      case _ => prefix
  }

  /** The output file of every template in `templates`, in order. */
  function OutputNames(templates: seq<Bytes>): (files: seq<Bytes>)
    ensures |files| == |templates|
    ensures forall k :: 0 <= k < |templates| ==> files[k] == OutputName(templates[k])
  {
    seq(|templates|, k requires 0 <= k < |templates| => OutputName(templates[k]))
  }

  /** What one iteration of the loop of main.go:30-70 does with `template`. */
  function Process(cfg: Config, io: Io, template: Bytes): (step: Step)
    ensures step.outcome.Pass? <==> |step.effects| == 3
    ensures |step.effects| <= 3 && (step.effects != [] ==> step.effects[0] == Opened(template))
  {
    var filebase := BaseName(template);
    var filename := filebase + SourceExt;
    if filename == cfg.gofile then Step(Fail(FileConflict(filename)), [])
    else
      match io.open(template)
      case None => Step(Fail(OpenFailed(template)), [])
      case Some(raw) =>
        var afterOpen := [Opened(template)];
        match io.minify(raw)
        case None => Step(Fail(MinifyFailed(template)), afterOpen)
        case Some(minified) =>
          match io.parseFragment(minified)
          case None => Step(Fail(ParseFailed(template)), afterOpen)
          case Some(nodes) =>
            match FirstChild(nodes)
            case None => Step(Fail(NoChildElement(template)), afterOpen)
            case Some(child) =>
              match Identifier(filebase)
              case None => Step(Fail(EmptyBaseName(template)), afterOpen)
              case Some(name) =>
                var source := GoSource(cfg.gopackage, HeaderComment(template), name, io.render(child));
                if !io.create(filename) then Step(Fail(CreateFailed(filename)), afterOpen)
                else
                  var created := afterOpen + [Created(filename)];
                  if !io.writeSource(filename, source) then Step(Fail(RenderFailed(filename)), created)
                  else if !io.close(filename) then Step(Fail(CloseFailed(filename)), created)
                  else Step(Pass, created + [Written(filename, source)])
  }

  /**
   * The fail-fast loop of main.go:30-70 over any per-template step: the
   * templates in turn, until one of them fails.
   */
  function RunSteps(step: Bytes -> Step, templates: seq<Bytes>): (run: Step)
    ensures run.outcome.Fail? ==>
      exists k :: 0 <= k < |templates| && step(templates[k]).outcome == run.outcome
  {
    if templates == [] then Step(Pass, [])
    else
      var before := RunSteps(step, templates[..|templates| - 1]);
      if before.outcome.Fail? then before
      else
        var last := step(templates[|templates| - 1]);
        Step(last.outcome, before.effects + last.effects)
  }

  /** The step the generator takes for each template. */
  function ProcessStep(cfg: Config, io: Io): (step: Bytes -> Step)
  {
    template => Process(cfg, io, template)
  }

  /** The whole run over the listed templates. */
  function Run(cfg: Config, io: Io, templates: seq<Bytes>): (run: Step)
    ensures templates == [] ==> run == Step(Pass, [])
  {
    RunSteps(ProcessStep(cfg, io), templates)
  }

  /**
   * The collision guard: when the output name is the invoking file, the template
   * fails with a conflict before anything is opened or created, whatever the
   * file system would have answered.
   */
  lemma {:induction false} ConflictComesFirst(cfg: Config, io: Io, template: Bytes)
    requires OutputName(template) == cfg.gofile
    ensures Process(cfg, io, template) == Step(Fail(FileConflict(cfg.gofile)), [])
  {
  }

  /** Opening a template and creating a file write no output. */
  lemma {:induction false} EarlyEffectsWriteNothing(template: Bytes, file: Bytes)
    ensures WrittenFiles([Opened(template)]) == []
    ensures WrittenFiles([Opened(template), Created(file)]) == []
  {
  }

  /** A template that fails writes no output; at most it was opened and its output created. */
  lemma {:induction false} FailureWritesNothing(cfg: Config, io: Io, template: Bytes)
    requires Process(cfg, io, template).outcome.Fail?
    ensures Process(cfg, io, template).effects <= [Opened(template), Created(OutputName(template))]
    ensures WrittenFiles(Process(cfg, io, template).effects) == []
  {
    var effects := Process(cfg, io, template).effects;
    var early := [Opened(template), Created(OutputName(template))];
    assert effects <= early;
    EarlyEffectsWriteNothing(template, OutputName(template));
    assert effects == [] || effects == early[..1] || effects == early;
  }

  /**
   * A template that passes has written exactly its output file, holding a
   * constant named after its base name whose value is the rendered payload
   * element of its parsed forest.
   */
  lemma {:induction false} PassWritesPayload(cfg: Config, io: Io, template: Bytes)
    requires Process(cfg, io, template).outcome.Pass?
    ensures OutputName(template) != cfg.gofile && Parsed(io, template).Some?
    ensures Identifier(BaseName(template)).Some?
    ensures var nodes := Parsed(io, template).value;
      exists i, j :: IsPayloadAt(nodes, i, j) &&
        var source := GoSource(cfg.gopackage, HeaderComment(template),
                               Identifier(BaseName(template)).value, io.render(nodes[i].children[j]));
        Process(cfg, io, template).effects ==
          [Opened(template), Created(OutputName(template)), Written(OutputName(template), source)]
  {
    var nodes := Parsed(io, template).value;
    FirstChildSound(nodes);
  }

  /**
   * A template whose forest has no `template` wrapper with an element child
   * aborts with that error, after opening the template and before creating
   * any output.
   */
  lemma {:induction false} MissingPayloadAborts(cfg: Config, io: Io, template: Bytes)
    requires OutputName(template) != cfg.gofile && Parsed(io, template).Some?
    requires forall i :: 0 <= i < |Parsed(io, template).value| ==> !IsUsableTemplate(Parsed(io, template).value[i])
    ensures Process(cfg, io, template) == Step(Fail(NoChildElement(template)), [Opened(template)])
  {
    FirstChildNone(Parsed(io, template).value);
  }

  /**
   * A template with no conflict, a parsed forest holding a payload and a
   * non-empty base name passes exactly when its output file is created,
   * receives the source and is closed.
   */
  lemma {:induction false} ValidTemplatePasses(cfg: Config, io: Io, template: Bytes)
    requires OutputName(template) != cfg.gofile && Parsed(io, template).Some?
    requires FirstChild(Parsed(io, template).value).Some? && BaseName(template) != []
    ensures var file := OutputName(template);
      var source := GoSource(cfg.gopackage, HeaderComment(template), Identifier(BaseName(template)).value,
                             io.render(FirstChild(Parsed(io, template).value).value));
      Process(cfg, io, template).outcome.Pass? <==>
        io.create(file) && io.writeSource(file, source) && io.close(file)
  {
  }

  /** A template that passes has written its own output file and no other. */
  lemma {:induction false} PassWritesOutput(cfg: Config, io: Io, template: Bytes)
    requires Process(cfg, io, template).outcome.Pass?
    ensures WrittenFiles(Process(cfg, io, template).effects) == [OutputName(template)]
  {
    var effects := Process(cfg, io, template).effects;
    EarlyEffectsWriteNothing(template, OutputName(template));
    assert effects[..2] == [Opened(template), Created(OutputName(template))];
  }

  /** WrittenFiles distributes over concatenation. */
  lemma {:induction false} WrittenFilesAppend(a: seq<Effect>, b: seq<Effect>)
    ensures WrittenFiles(a + b) == WrittenFiles(a) + WrittenFiles(b)
  {
    if b == [] {
      assert a + b == a;
    } else {
      var ab := a + b;
      assert ab[..|ab| - 1] == a + b[..|b| - 1];
      WrittenFilesAppend(a, b[..|b| - 1]);
    }
  }

  /** Once a run has failed, later templates change nothing: neither its outcome nor its effects. */
  lemma {:induction false} StepsStopAtFailure(step: Bytes -> Step, templates: seq<Bytes>, later: seq<Bytes>)
    requires RunSteps(step, templates).outcome.Fail?
    ensures RunSteps(step, templates + later) == RunSteps(step, templates)
  {
    if later != [] {
      var all := templates + later;
      assert all[..|all| - 1] == templates + later[..|later| - 1];
      StepsStopAtFailure(step, templates, later[..|later| - 1]);
    } else {
      assert templates + later == templates;
    }
  }

  /** A run whose templates so far have passed goes on with the next template's step. */
  lemma {:induction false} StepsExtend(step: Bytes -> Step, templates: seq<Bytes>, i: int, effects: seq<Effect>)
    requires 0 <= i < |templates|
    requires RunSteps(step, templates[..i]) == Step(Pass, effects)
    ensures RunSteps(step, templates[..i + 1]) ==
      Step(step(templates[i]).outcome, effects + step(templates[i]).effects)
  {
    assert templates[..i + 1][..i] == templates[..i];
  }

  /** A run whose templates so far have passed ends at the next template when that one fails. */
  lemma {:induction false} StepsEndAt(step: Bytes -> Step, templates: seq<Bytes>, i: int, effects: seq<Effect>)
    requires 0 <= i < |templates|
    requires RunSteps(step, templates[..i]) == Step(Pass, effects)
    requires step(templates[i]).outcome.Fail?
    ensures RunSteps(step, templates) == Step(step(templates[i]).outcome, effects + step(templates[i]).effects)
  {
    StepsExtend(step, templates, i, effects);
    StepsStopAtFailure(step, templates[..i + 1], templates[i + 1..]);
    assert templates[..i + 1] + templates[i + 1..] == templates;
  }

  /** A run passes exactly when every template passes. */
  lemma {:induction false} StepsPass(step: Bytes -> Step, templates: seq<Bytes>)
    ensures RunSteps(step, templates).outcome.Pass? <==>
      forall k :: 0 <= k < |templates| ==> step(templates[k]).outcome.Pass?
  {
    if templates != [] {
      var n := |templates| - 1;
      var init := templates[..n];
      StepsPass(step, init);
      assert forall k :: 0 <= k < n ==> init[k] == templates[k];
    }
  }

  /**
   * When every passing step writes the output file of its template and only
   * that, a passing run has written the output file of every template, in order.
   */
  lemma {:induction false} StepsWriteAll(step: Bytes -> Step, templates: seq<Bytes>)
    requires forall t :: step(t).outcome.Pass? ==> WrittenFiles(step(t).effects) == [OutputName(t)]
    requires RunSteps(step, templates).outcome.Pass?
    ensures WrittenFiles(RunSteps(step, templates).effects) == OutputNames(templates)
  {
    if templates != [] {
      var n := |templates| - 1;
      var init := templates[..n];
      var before, last := RunSteps(step, init), step(templates[n]);
      assert before.outcome.Pass? && last.outcome.Pass?;
      assert RunSteps(step, templates).effects == before.effects + last.effects;
      StepsWriteAll(step, init);
      assert WrittenFiles(last.effects) == [OutputName(templates[n])];
      WrittenFilesAppend(before.effects, last.effects);
      assert OutputNames(templates) == OutputNames(init) + [OutputName(templates[n])];
    }
  }

  /**
   * Fail-fast: when the templates before `i` pass and template `i` fails, the
   * run ends with that failure, and its effects are those of the earlier
   * templates followed by those of template `i`.
   */
  lemma {:induction false} StepsFailAt(step: Bytes -> Step, templates: seq<Bytes>, i: int)
    requires 0 <= i < |templates|
    requires forall k :: 0 <= k < i ==> step(templates[k]).outcome.Pass?
    requires step(templates[i]).outcome.Fail?
    ensures RunSteps(step, templates) ==
      Step(step(templates[i]).outcome, RunSteps(step, templates[..i]).effects + step(templates[i]).effects)
  {
    var init := templates[..i];
    StepsPass(step, init);
    var upto := templates[..i + 1];
    assert upto[..i] == init;
    StepsStopAtFailure(step, upto, templates[i + 1..]);
    assert upto + templates[i + 1..] == templates;
  }

  /** Every failed run failed at some template all of whose predecessors passed. */
  lemma {:induction false} StepsFirstFailure(step: Bytes -> Step, templates: seq<Bytes>)
    requires RunSteps(step, templates).outcome.Fail?
    ensures exists i :: 0 <= i < |templates| &&
                        (forall k :: 0 <= k < i ==> step(templates[k]).outcome.Pass?) &&
                        step(templates[i]).outcome == RunSteps(step, templates).outcome
  {
    var n := |templates| - 1;
    var init := templates[..n];
    assert forall k :: 0 <= k < n ==> init[k] == templates[k];
    if RunSteps(step, init).outcome.Fail? {
      StepsFirstFailure(step, init);
      var i :| 0 <= i < |init| &&
        (forall k :: 0 <= k < i ==> step(init[k]).outcome.Pass?) &&
        step(init[i]).outcome == RunSteps(step, init).outcome;
      assert step(templates[i]).outcome == RunSteps(step, templates).outcome;
    } else {
      StepsPass(step, init);
    }
  }

  /** The generator's run passes exactly when every template passes. */
  lemma {:induction false} RunPasses(cfg: Config, io: Io, templates: seq<Bytes>)
    ensures Run(cfg, io, templates).outcome.Pass? <==>
      forall k :: 0 <= k < |templates| ==> Process(cfg, io, templates[k]).outcome.Pass?
  {
    StepsPass(ProcessStep(cfg, io), templates);
  }

  /** A passing run of the generator has written the output file of every template, in listing order. */
  lemma {:induction false} RunWritesAll(cfg: Config, io: Io, templates: seq<Bytes>)
    requires Run(cfg, io, templates).outcome.Pass?
    ensures WrittenFiles(Run(cfg, io, templates).effects) == OutputNames(templates)
  {
    var step := ProcessStep(cfg, io);
    forall t | step(t).outcome.Pass? ensures WrittenFiles(step(t).effects) == [OutputName(t)] {
      PassWritesOutput(cfg, io, t);
    }
    StepsWriteAll(step, templates);
  }

  /**
   * Fail-fast in the generator: when the templates before `i` pass and
   * template `i` fails, the run ends with that failure, adds only the effects
   * of template `i`, and has written the outputs of the earlier templates and
   * no other.
   */
  lemma {:induction false} RunFailsAt(cfg: Config, io: Io, templates: seq<Bytes>, i: int)
    requires 0 <= i < |templates|
    requires forall k :: 0 <= k < i ==> Process(cfg, io, templates[k]).outcome.Pass?
    requires Process(cfg, io, templates[i]).outcome.Fail?
    ensures Run(cfg, io, templates) ==
      Step(Process(cfg, io, templates[i]).outcome,
           Run(cfg, io, templates[..i]).effects + Process(cfg, io, templates[i]).effects)
    ensures WrittenFiles(Run(cfg, io, templates).effects) == OutputNames(templates[..i])
  {
    var step := ProcessStep(cfg, io);
    var init := templates[..i];
    StepsFailAt(step, templates, i);
    assert forall k :: 0 <= k < i ==> init[k] == templates[k];
    RunPasses(cfg, io, init);
    RunWritesAll(cfg, io, init);
    FailureWritesNothing(cfg, io, templates[i]);
    WrittenFilesAppend(Run(cfg, io, init).effects, Process(cfg, io, templates[i]).effects);
  }

  /** Every failed run of the generator failed at a template all of whose predecessors passed. */
  lemma {:induction false} RunFirstFailure(cfg: Config, io: Io, templates: seq<Bytes>)
    requires Run(cfg, io, templates).outcome.Fail?
    ensures exists i :: 0 <= i < |templates| &&
                        (forall k :: 0 <= k < i ==> Process(cfg, io, templates[k]).outcome.Pass?) &&
                        Process(cfg, io, templates[i]).outcome == Run(cfg, io, templates).outcome
  {
    StepsFirstFailure(ProcessStep(cfg, io), templates);
  }

  /**
   * The collision guard in the batch: a template whose output would be the
   * invoking file, reached after passing templates, ends the run with a
   * conflict and adds no effect to those of the earlier templates.
   */
  lemma {:induction false} ConflictEndsRun(cfg: Config, io: Io, templates: seq<Bytes>, i: int)
    requires 0 <= i < |templates| && OutputName(templates[i]) == cfg.gofile
    requires forall k :: 0 <= k < i ==> Process(cfg, io, templates[k]).outcome.Pass?
    ensures Run(cfg, io, templates) == Step(Fail(FileConflict(cfg.gofile)), Run(cfg, io, templates[..i]).effects)
    ensures WrittenFiles(Run(cfg, io, templates).effects) == OutputNames(templates[..i])
  {
    ConflictComesFirst(cfg, io, templates[i]);
    RunFailsAt(cfg, io, templates, i);
    assert Run(cfg, io, templates[..i]).effects + [] == Run(cfg, io, templates[..i]).effects;
  }

  /**
   * A template without payload, reached after passing templates, ends the run
   * with that error; the run has written the outputs of the earlier templates
   * and nothing for this one or any later one.
   */
  lemma {:induction false} MissingPayloadEndsRun(cfg: Config, io: Io, templates: seq<Bytes>, i: int)
    requires 0 <= i < |templates|
    requires forall k :: 0 <= k < i ==> Process(cfg, io, templates[k]).outcome.Pass?
    requires OutputName(templates[i]) != cfg.gofile && Parsed(io, templates[i]).Some?
    requires FirstChild(Parsed(io, templates[i]).value).None?
    ensures Run(cfg, io, templates).outcome == Fail(NoChildElement(templates[i]))
    ensures WrittenFiles(Run(cfg, io, templates).effects) == OutputNames(templates[..i])
  {
    FirstChildNone(Parsed(io, templates[i]).value);
    MissingPayloadAborts(cfg, io, templates[i]);
    RunFailsAt(cfg, io, templates, i);
  }

  /**
   * One iteration of the loop of main.go:31-69: derive the names, apply the
   * collision guard, read, minify and parse the template, find its payload,
   * render it, derive the identifier, and write the Go file. Each `must`
   * becomes an early return of the failure.
   */
  method ProcessTemplate(cfg: Config, io: Io, template: Bytes) returns (outcome: Outcome<Failure>, ghost effects: seq<Effect>)
    ensures outcome == Process(cfg, io, template).outcome
    ensures effects == Process(cfg, io, template).effects
  {
    effects := [];
    var filebase := BaseName(template);
    var filename := filebase + SourceExt;
    // Never overwrite the file whose go:generate line runs the generator.
    if filename == cfg.gofile {
      return Fail(FileConflict(filename)), effects;
    }
    var file := io.open(template);
    if file.None? {
      return Fail(OpenFailed(template)), effects;
    }
    effects := effects + [Opened(template)];
    var minified := io.minify(file.value);
    if minified.None? {
      return Fail(MinifyFailed(template)), effects;
    }
    var nodes := io.parseFragment(minified.value);
    if nodes.None? {
      return Fail(ParseFailed(template)), effects;
    }
    var child := FindFirstChild(nodes.value);
    if child.None? {
      return Fail(NoChildElement(template)), effects;
    }
    var markup := io.render(child.value);
    var name := Identifier(filebase);
    if name.None? {
      return Fail(EmptyBaseName(template)), effects;
    }
    var source := GoSource(cfg.gopackage, HeaderComment(template), name.value, markup);
    if !io.create(filename) {
      return Fail(CreateFailed(filename)), effects;
    }
    effects := effects + [Created(filename)];
    if !io.writeSource(filename, source) {
      return Fail(RenderFailed(filename)), effects;
    }
    if !io.close(filename) {
      return Fail(CloseFailed(filename)), effects;
    }
    effects := effects + [Written(filename, source)];
    return Pass, effects;
  }

  /**
   * The generator's main loop (main.go:30-70): the templates in listing order,
   * each processed in full before the next, the first failure returned at once.
   */
  method Generate(cfg: Config, io: Io, templates: seq<Bytes>) returns (outcome: Outcome<Failure>, ghost effects: seq<Effect>)
    ensures outcome == Run(cfg, io, templates).outcome
    ensures effects == Run(cfg, io, templates).effects
  {
    effects := [];
    ghost var step := ProcessStep(cfg, io);
    var i := 0;
    while i < |templates|
      invariant 0 <= i <= |templates|
      invariant RunSteps(step, templates[..i]) == Step(Pass, effects)
    {
      var stepOutcome;
      ghost var stepEffects;
      stepOutcome, stepEffects := ProcessTemplate(cfg, io, templates[i]);
      if stepOutcome.Fail? {
        StepsEndAt(step, templates, i, effects);
        return stepOutcome, effects + stepEffects;
      }
      StepsExtend(step, templates, i, effects);
      effects := effects + stepEffects;
      i := i + 1;
    }
    assert templates[..i] == templates;
    return Pass, effects;
  }
}
