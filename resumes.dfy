/**
 * The structured résumé record the dashboard holds, the fixed profile that
 * résumé intake fabricates, and the simulated optimization engine that turns
 * an uploaded résumé into an optimized copy.
 */
module Resumes {
  import opened Wrappers

  datatype Experience = Experience(
    title: string,
    company: string,
    period: string,
    responsibilities: seq<string>)

  datatype Education = Education(degree: string, school: string, year: string)

  /**
   * The `data` object of a résumé. `keywordMatches` and `improvements` are
   * absent from an uploaded profile and added by the optimization engine.
   */
  datatype Profile = Profile(
    name: string,
    email: string,
    phone: string,
    title: string,
    summary: string,
    experience: seq<Experience>,
    education: seq<Education>,
    skills: seq<string>,
    keywordMatches: Option<int>,
    improvements: Option<seq<string>>)

  /** An uploaded résumé: the file's name, its decoded text and the parsed profile. */
  datatype Resume = Resume(name: string, content: string, data: Profile)

  /** The profile intake attaches to every uploaded résumé, whatever its file. */
  const FixtureProfile: Profile := Profile(
    "John Doe",
    "john.doe@example.com",
    "555-123-4567",
    "Senior Software Engineer",
    "Experienced software engineer with expertise in React, Node.js, and cloud infrastructure. 8+ years building scalable web applications and leading development teams.",
    [ Experience("Senior Software Engineer", "Tech Solutions Inc.", "2018 - Present",
        [ "Lead a team of 5 engineers developing a SaaS platform",
          "Architect and implement microservices using Node.js and AWS",
          "Optimize React frontend performance by reducing bundle size by 40%" ]),
      Experience("Software Engineer", "WebDev Agency", "2015 - 2018",
        [ "Developed responsive web applications using React and Redux",
          "Implemented RESTful APIs using Express.js",
          "Collaborated with UX designers to improve user experience" ]) ],
    [ Education("M.S. Computer Science", "Tech University", "2015"),
      Education("B.S. Computer Science", "State University", "2013") ],
    ["JavaScript", "React", "Node.js", "Express", "AWS", "MongoDB", "GraphQL", "TypeScript", "Docker", "Kubernetes"],
    None,
    None)

  const OptimizedSummary: string :=
    "Detail-oriented software engineer with 8+ years of experience building modern web applications. Expert in React, Node.js, and cloud infrastructure with a proven track record of leading teams and delivering high-performance solutions that drive business results."

  const OptimizedSkills: seq<string> :=
    ["JavaScript", "React", "Redux", "Node.js", "Express", "AWS", "MongoDB", "GraphQL", "TypeScript", "CI/CD", "Docker"]

  /** The match score every optimization reports, as a percentage. */
  const KeywordMatchScore: int := 85

  const ImprovementNotes: seq<string> := [
    "Added keywords from job description",
    "Reordered experience to highlight relevant achievements",
    "Quantified achievements with metrics",
    "Adjusted summary to align with job requirements"
  ]

  /** A profile as a successful intake delivers it: summary and skills are not empty. */
  predicate FromIntake(p: Profile) {
    p.summary != "" && p.skills != []
  }

  /** The résumé as uploaded from file `fileName` whose decoded text is `text`. */
  function Uploaded(fileName: string, text: string): (r: Resume)
    ensures r.name == fileName && r.content == text
    ensures FromIntake(r.data) && r.data.keywordMatches.None? && r.data.improvements.None?
  {
    Resume(fileName, text, FixtureProfile)
  }

  /** The profile fields the engine carries over from its input unchanged. */
  predicate SameIdentity(a: Profile, b: Profile) {
    && a.name == b.name && a.email == b.email && a.phone == b.phone && a.title == b.title
    && a.experience == b.experience && a.education == b.education
  }

  /**
   * The simulated engine: a copy of `r` whose profile has a rewritten summary,
   * a new skill list, a match score and a list of improvement notes. The job
   * target and the tuning parameters do not influence the result.
   */
  function Optimize(r: Resume): (o: Resume)
    ensures o.name == r.name && o.content == r.content
    ensures SameIdentity(o.data, r.data)
    ensures o.data.summary == OptimizedSummary && o.data.skills == OptimizedSkills
    ensures o.data.keywordMatches == Some(KeywordMatchScore)
    ensures o.data.improvements == Some(ImprovementNotes)
    ensures 0 <= o.data.keywordMatches.value <= 100
    ensures |o.data.improvements.value| == 4
    ensures FromIntake(o.data)
  {
    r.(data := r.data.(
      summary := OptimizedSummary,
      skills := OptimizedSkills,
      keywordMatches := Some(KeywordMatchScore),
      improvements := Some(ImprovementNotes)))
  }

  /** The engine's result depends only on the fields it carries over. */
  lemma OptimizeDependsOnlyOnIdentity(r1: Resume, r2: Resume)
    requires r1.name == r2.name && r1.content == r2.content
    requires SameIdentity(r1.data, r2.data)
    ensures Optimize(r1) == Optimize(r2)
  {
  }

  /** Optimizing an already optimized résumé changes nothing further. */
  lemma OptimizeIdempotent(r: Resume)
    ensures Optimize(Optimize(r)) == Optimize(r)
  {
  }
}
