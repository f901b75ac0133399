/**
 * The five optimization parameters. Four of them have a range input from 1
 * to 10, shown once an optimized résumé exists; skillsEmphasis has none.
 * Changing one sets that key alone.
 */
module Tuning {

  datatype Param = KeywordEmphasis | BriefnessFactor | TechnicalDetail | ExperienceHighlight | SkillsEmphasis

  datatype Parameters = Parameters(
    keywordEmphasis: int,
    briefnessFactor: int,
    technicalDetail: int,
    experienceHighlight: int,
    skillsEmphasis: int)
  {
    /** The value of parameter `p`. */
    function Get(p: Param): int {
      match p
      case KeywordEmphasis => keywordEmphasis
      case BriefnessFactor => briefnessFactor
      case TechnicalDetail => technicalDetail
      case ExperienceHighlight => experienceHighlight
      case SkillsEmphasis => skillsEmphasis
    }

    /** The record `{...parameters, [p]: v}`: key `p` takes `v`, every other key is kept. */
    function With(p: Param, v: int): (r: Parameters)
      ensures r.Get(p) == v
      ensures forall q :: q != p ==> r.Get(q) == Get(q)
    {
      match p
      case KeywordEmphasis => this.(keywordEmphasis := v)
      case BriefnessFactor => this.(briefnessFactor := v)
      case TechnicalDetail => this.(technicalDetail := v)
      case ExperienceHighlight => this.(experienceHighlight := v)
      case SkillsEmphasis => this.(skillsEmphasis := v)
    }

    /** Every parameter lies within a range input's bounds. */
    predicate InRange() {
      forall p :: SliderMin <= Get(p) <= SliderMax
    }
  }

  const SliderMin: int := 1
  const SliderMax: int := 10

  /** The parameters' values when the dashboard first renders. */
  const InitialParameters: Parameters := Parameters(7, 5, 5, 5, 5)

  lemma InitialParametersValues()
    ensures InitialParameters.Get(KeywordEmphasis) == 7
    ensures forall p :: p != KeywordEmphasis ==> InitialParameters.Get(p) == 5
    ensures InitialParameters.InRange()
  {
  }

  /** Setting a key twice to the same value is the same as setting it once. */
  lemma WithIdempotent(ps: Parameters, p: Param, v: int)
    ensures ps.With(p, v).With(p, v) == ps.With(p, v)
  {
  }

  /** Setting a key to its current value leaves the record as it is. */
  lemma WithCurrentValue(ps: Parameters, p: Param)
    ensures ps.With(p, ps.Get(p)) == ps
  {
  }

  /** The parameters are independent: changes to two different keys commute. */
  lemma WithCommutes(ps: Parameters, p: Param, v: int, q: Param, w: int)
    requires p != q
    ensures ps.With(p, v).With(q, w) == ps.With(q, w).With(p, v)
  {
  }

  /** A value a range input can produce keeps every parameter within bounds. */
  lemma WithPreservesRange(ps: Parameters, p: Param, v: int)
    requires ps.InRange() && SliderMin <= v <= SliderMax
    ensures ps.With(p, v).InRange()
  {
  }
}
