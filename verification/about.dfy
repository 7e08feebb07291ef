/** The résumé download of the about section (src/components/About.jsx). */
module About {
  import I18n

  /** `resumeFiles`: one résumé per supported language. */
  const ResumeFiles: map<string, string> := map[
    "de" := "/Lebenslauf_Chenshun_Weng.pdf",
    "en" := "/Resume_Chenshun_Weng.pdf",
    "zh" := "/翁陈顺.pdf"
  ]

  /** `currentResumeFile`: the file of the active language, or the German file for any other code. */
  function CurrentResumeFile(language: string): (file: string)
    ensures language in ResumeFiles ==> file == ResumeFiles[language]
    ensures language !in ResumeFiles ==> file == ResumeFiles["de"]
    ensures file in ResumeFiles.Values
  {
    if language in ResumeFiles && ResumeFiles[language] != "" then ResumeFiles[language] else ResumeFiles["de"]
  }

  /** Each supported language has its own résumé: the three files are pairwise distinct. */
  lemma ResumePerLanguage(l1: I18n.Lang, l2: I18n.Lang)
    ensures I18n.Code(l1) in ResumeFiles
    ensures CurrentResumeFile(I18n.Code(l1)) == CurrentResumeFile(I18n.Code(l2)) <==> l1 == l2
  {
  }

  /** A code outside the three, such as a regional `en-US`, gets the German résumé. */
  lemma OtherCodesGetGerman(language: string)
    requires language !in {"de", "en", "zh"}
    ensures CurrentResumeFile(language) == CurrentResumeFile("de")
  {
  }
}
