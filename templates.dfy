/** The simulation templates the wrapper knows (the `Engine_Template` enumeration). */
module Templates {

  datatype Template = MOO | MOOonly | HDMR | DKL | Evaluate | Sensitivity | MCDM | SampleSRM

  /** `template.name`, the text sent as `SimulationType`. */
  function Name(t: Template): string
  {
    match t
    case MOO => "MOO"
    case MOOonly => "MOOonly"
    case HDMR => "HDMR"
    case DKL => "DKL"
    case Evaluate => "Evaluate"
    case Sensitivity => "Sensitivity"
    case MCDM => "MCDM"
    case SampleSRM => "SampleSRM"
  }

  /** The seven templates the request encoder translates; any other gets an empty request. */
  predicate Encodable(t: Template)
  {
    t in {MOO, MOOonly, HDMR, Evaluate, Sensitivity, MCDM, SampleSRM}
  }
}
