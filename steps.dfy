/** Stages of the gccrs pipeline gccrs can be told to stop after (src/steps.rs). */
module Steps {

  import opened Strings

  datatype CompileStep = Expansion | TypeCheck | End

  /** `CompileStep::variants()`: every step once, in pipeline order. */
  function Variants(): (r: seq<CompileStep>)
    ensures |r| == 3 && r[0] == Expansion && r[1] == TypeCheck && r[2] == End
  {
    [Expansion, TypeCheck, End]
  }

  /** No step is missing from `Variants()`. */
  lemma VariantsComplete(s: CompileStep)
    ensures s in Variants()
  {
    match s {
      case Expansion => assert Variants()[0] == s;
      case TypeCheck => assert Variants()[1] == s;
      case End => assert Variants()[2] == s;
    }
  }

  /** `compile_option`: the gccrs flag that stops compilation after a step. */
  function CompileOption(s: CompileStep): (r: string)
    ensures StartsWith(r, "-frust-compile-until=")
  {
    match s
    case Expansion => "-frust-compile-until=expansion"
    case TypeCheck => "-frust-compile-until=typecheck"
    case End => "-frust-compile-until=end"
  }

  /** The part of the flag after `=` names the step. */
  function StepName(s: CompileStep): string {
    match s
    case Expansion => "expansion"
    case TypeCheck => "typecheck"
    case End => "end"
  }

  /** Each flag is the common prefix followed by the step's own name, so two steps never share
      a flag. */
  lemma CompileOptionsDistinct(a: CompileStep, b: CompileStep)
    ensures CompileOption(a) == "-frust-compile-until=" + StepName(a)
    ensures CompileOption(a) == CompileOption(b) ==> a == b
  {
  }
}
