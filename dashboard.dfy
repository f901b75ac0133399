/**
 * The résumé-optimization workflow of the dashboard: its ten pieces of
 * component state and the event handlers that change them.
 */
module Dashboard {
  import opened Wrappers
  import opened Resumes
  import opened Tuning

  /** The workflow's phases, read off the state. */
  datatype Phase = Empty | ResumeLoaded | Optimizing | Optimized

  /** The template the gallery starts on. */
  const DefaultTemplate: string := "modern"
  /** The template the unoptimized résumé is always previewed with. */
  const RawPreviewTemplate: string := "simple"

  /** The handler's validation: a résumé, and a description or both a title and a company. */
  predicate JobTargetReady(resume: Option<Resume>, description: string, title: string, company: string) {
    resume.Some? && (description != "" || (title != "" && company != ""))
  }

  class Workflow {
    var resume: Option<Resume>
    var jobDescription: string
    var jobTitle: string
    var jobCompany: string
    var isProcessing: bool
    var optimizedResume: Option<Resume>
    var isTemplateModalOpen: bool
    var selectedTemplate: string
    var showParameters: bool
    var parameters: Parameters
    /**
     * The completion timer scheduled by an accepted optimize, holding the
     * résumé its callback captured when it was scheduled; None when no timer
     * is pending.
     */
    var pending: Option<Resume>

    ghost predicate Valid()
      reads this
    {
      && (showParameters <==> optimizedResume.Some?)
      && (optimizedResume.Some? ==> resume.Some?)
      && (isProcessing <==> pending.Some?)
      && (pending.Some? ==> resume.Some?)
    }

    function Phase(): Phase
      reads this
    {
      if resume.None? then Empty
      else if isProcessing then Optimizing
      else if optimizedResume.Some? then Optimized
      else ResumeLoaded
    }

    /**
     * What the résumé pane previews: the optimized profile in the selected
     * template, else the raw profile in the plain template, else nothing.
     */
    function Preview(): (p: Option<(Profile, string)>)
      reads this
      ensures p.None? <==> resume.None? && optimizedResume.None?
      ensures optimizedResume.Some? ==> p == Some((optimizedResume.value.data, selectedTemplate))
      ensures optimizedResume.None? && p.Some? ==> p.value.1 == RawPreviewTemplate && p.value.0 == resume.value.data
    {
      if optimizedResume.Some? then Some((optimizedResume.value.data, selectedTemplate))
      else if resume.Some? then Some((resume.value.data, RawPreviewTemplate))
      else None
    }

    constructor ()
      ensures Valid() && Phase() == Empty
      ensures resume == None && optimizedResume == None && pending == None
      ensures jobDescription == "" && jobTitle == "" && jobCompany == ""
      ensures !isProcessing && !isTemplateModalOpen && !showParameters
      ensures selectedTemplate == DefaultTemplate
      ensures parameters == InitialParameters
    {
      resume := None;
      jobDescription := "";
      jobTitle := "";
      jobCompany := "";
      isProcessing := false;
      optimizedResume := None;
      isTemplateModalOpen := false;
      selectedTemplate := DefaultTemplate;
      showParameters := false;
      parameters := InitialParameters;
      pending := None;
    }

    /** A résumé file has been decoded to `text`: it replaces any earlier résumé. */
    method UploadResume(fileName: string, text: string)
      requires Valid()
      modifies this`resume
      ensures Valid()
      ensures resume == Some(Uploaded(fileName, text))
      ensures resume.value.data == FixtureProfile
      ensures old(Phase()) == Empty ==> Phase() == ResumeLoaded
      ensures old(Phase()) != Empty ==> Phase() == old(Phase())
    {
      resume := Some(Uploaded(fileName, text));
    }

    /** A job-description file has been decoded to `text`. */
    method UploadJobDescription(text: string)
      requires Valid()
      modifies this`jobDescription
      ensures Valid() && Phase() == old(Phase())
      ensures jobDescription == text
    {
      jobDescription := text;
    }

    /** The job-title input was edited. */
    method EditJobTitle(title: string)
      requires Valid()
      modifies this`jobTitle
      ensures Valid() && Phase() == old(Phase())
      ensures jobTitle == title
    {
      jobTitle := title;
    }

    /** The company input was edited. */
    method EditJobCompany(company: string)
      requires Valid()
      modifies this`jobCompany
      ensures Valid() && Phase() == old(Phase())
      ensures jobCompany == company
    {
      jobCompany := company;
    }

    /**
     * The optimize handler. The button is disabled while a run is pending, so
     * the handler is never entered then. A rejected request changes nothing;
     * an accepted one marks the workflow busy and schedules completion on the
     * résumé as it is now.
     */
    method StartOptimize() returns (accepted: bool)
      requires Valid() && !isProcessing
      modifies this`isProcessing, this`pending
      ensures Valid()
      ensures accepted <==> JobTargetReady(resume, jobDescription, jobTitle, jobCompany)
      ensures accepted ==> isProcessing && pending == resume && Phase() == Optimizing
      ensures !accepted ==> !isProcessing && pending == None
    {
      if resume.None? || (jobDescription == "" && (jobTitle == "" || jobCompany == "")) {
        // the user is alerted; nothing changes
        return false;
      }
      isProcessing := true;
      pending := resume;
      accepted := true;
    }

    /**
     * The completion timer fires: the optimized copy of the captured résumé
     * becomes the result, the busy flag drops and the parameter panel opens.
     */
    method CompleteOptimize()
      requires Valid() && pending.Some?
      modifies this`optimizedResume, this`isProcessing, this`showParameters, this`pending
      ensures Valid() && Phase() == Optimized
      ensures optimizedResume == Some(Optimize(old(pending).value))
      ensures !isProcessing && showParameters && pending == None
    {
      optimizedResume := Some(Optimize(pending.value));
      isProcessing := false;
      showParameters := true;
      pending := None;
    }

    /** Discards the optimization result and returns to the job-details form. */
    method ResetOptimization()
      requires Valid()
      modifies this`optimizedResume, this`showParameters
      ensures Valid()
      ensures optimizedResume == None && !showParameters
      ensures old(Phase()) == Optimized ==> Phase() == ResumeLoaded
      ensures old(Phase()) != Optimized ==> Phase() == old(Phase())
    {
      optimizedResume := None;
      showParameters := false;
    }

    /** A slider moved: key `p` takes `v`; the result is not recomputed. */
    method ChangeParameter(p: Param, v: int)
      requires Valid()
      modifies this`parameters
      ensures Valid() && Phase() == old(Phase())
      ensures parameters == old(parameters).With(p, v)
      ensures parameters.Get(p) == v
      ensures forall q :: q != p ==> parameters.Get(q) == old(parameters).Get(q)
      ensures old(parameters).InRange() && SliderMin <= v <= SliderMax ==> parameters.InRange()
    {
      if parameters.InRange() && SliderMin <= v <= SliderMax {
        WithPreservesRange(parameters, p, v);
      }
      parameters := parameters.With(p, v);
    }

    /** The change-template button opens the gallery. */
    method OpenTemplateModal()
      requires Valid()
      modifies this`isTemplateModalOpen
      ensures Valid() && Phase() == old(Phase())
      ensures isTemplateModalOpen
    {
      isTemplateModalOpen := true;
    }

    /** A template was picked in the gallery: it becomes current and the gallery closes. */
    method SelectTemplate(template: string)
      requires Valid()
      modifies this`selectedTemplate, this`isTemplateModalOpen
      ensures Valid() && Phase() == old(Phase())
      ensures selectedTemplate == template && !isTemplateModalOpen
      ensures optimizedResume.Some? ==> Preview() == Some((optimizedResume.value.data, template))
      ensures optimizedResume.None? ==> Preview() == old(Preview())
    {
      selectedTemplate := template;
      isTemplateModalOpen := false;
    }

    /** The gallery was dismissed without a choice. */
    method CloseTemplateModal()
      requires Valid()
      modifies this`isTemplateModalOpen
      ensures Valid() && Phase() == old(Phase())
      ensures !isTemplateModalOpen
    {
      isTemplateModalOpen := false;
    }
  }
}
