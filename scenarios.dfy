/**
 * Client runs of the workflow and the session store, proved from the
 * contracts of their methods alone.
 */
module Scenarios {
  import opened Wrappers
  import opened Resumes
  import opened Tuning
  import opened Dashboard
  import opened Auth

  /** Optimize with no résumé is rejected and the workflow stays empty. */
  method OptimizeWithoutResume() {
    var w := new Workflow();
    w.EditJobTitle("Senior Engineer");
    w.EditJobCompany("Acme");
    var ok := w.StartOptimize();
    assert !ok && w.Phase() == Empty && !w.isProcessing;
  }

  /** A title and a company suffice; completion yields a scored result. */
  method OptimizeWithTitleAndCompany(fileName: string, text: string) {
    var w := new Workflow();
    w.UploadResume(fileName, text);
    w.EditJobTitle("Senior Engineer");
    w.EditJobCompany("Acme");
    var ok := w.StartOptimize();
    assert ok && w.Phase() == Optimizing;
    w.CompleteOptimize();
    assert w.Phase() == Optimized && w.showParameters;
    assert w.optimizedResume.value.data.keywordMatches == Some(85);
    assert w.optimizedResume.value.name == fileName;
  }

  /** A description alone suffices; a title without a company does not. */
  method OptimizeWithDescription(fileName: string, text: string) {
    var w := new Workflow();
    w.UploadResume(fileName, text);
    w.EditJobTitle("Senior Engineer");
    var ok := w.StartOptimize();
    assert !ok && w.Phase() == ResumeLoaded;
    w.UploadJobDescription("Looking for a Python developer...");
    ok := w.StartOptimize();
    assert ok;
  }

  /** Changing the template while optimized leaves the result alone; reset keeps résumé and template. */
  method TemplateAndReset(fileName: string, text: string) {
    var w := new Workflow();
    w.UploadResume(fileName, text);
    w.UploadJobDescription("Looking for a Python developer...");
    var ok := w.StartOptimize();
    w.CompleteOptimize();
    var result := w.optimizedResume;
    w.OpenTemplateModal();
    w.SelectTemplate("simple");
    assert w.optimizedResume == result && !w.isTemplateModalOpen;
    assert w.Preview() == Some((result.value.data, "simple"));
    w.ChangeParameter(BriefnessFactor, 9);
    assert w.optimizedResume == result;
    assert w.parameters.Get(KeywordEmphasis) == 7 && w.parameters.Get(BriefnessFactor) == 9;
    w.ResetOptimization();
    assert w.Phase() == ResumeLoaded && w.resume == Some(Uploaded(fileName, text));
    assert w.selectedTemplate == "simple";
    assert w.Preview() == Some((FixtureProfile, RawPreviewTemplate));
  }

  /**
   * A résumé uploaded while a run is pending does not reach its result: the
   * result is built from the résumé captured when optimize was accepted.
   */
  method UploadDuringOptimize() {
    var w := new Workflow();
    w.UploadResume("old.pdf", "old text");
    w.UploadJobDescription("Looking for a Python developer...");
    var ok := w.StartOptimize();
    w.UploadResume("new.pdf", "new text");
    w.CompleteOptimize();
    assert w.optimizedResume.value.name == "old.pdf";
    assert w.resume.value.name == "new.pdf";
  }

  /** Sign-up, update and logout keep the stored user and the current one in step. */
  method SessionLifecycle(browserStorage: map<string, Record>) {
    var auth := new AuthProvider(browserStorage);
    auth.LoadFromStorage();
    var email := "jane" + "@" + "example.com";
    var u := auth.Signup(email, "secret", "");
    EmailPrefixOfAddress("jane", "example.com");
    assert u["name"] == Str("jane");
    auth.UpdateUser(map["credits" := Num(4)]);
    assert auth.currentUser.value["credits"] == Num(4);
    assert auth.currentUser.value["name"] == Str("jane");
    assert auth.storage[UserKey] == auth.currentUser.value;
    auth.Logout();
    assert auth.currentUser == None && UserKey !in auth.storage;
  }
}
