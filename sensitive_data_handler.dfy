/**
 The entry point checkForSensitiveData: the flag and the redacted copy, with
 what they promise stated on the function itself.
 */
module SensitiveDataHandler {
  import opened Scanner
  import ScannerStars

  datatype Verdict = Verdict(containsSensitiveData: bool, redactedMessage: string)

  /**
   The flag is the five patterns tested on the original message (which holds
   exactly when one of them matches somewhere, ScannerFacts.FoundIffSomeCategoryMatches),
   and the redacted copy differs from the message exactly when the flag is raised.
   */
  function CheckForSensitiveData(message: string): (r: Verdict)
    ensures r.containsSensitiveData <==> r.redactedMessage != message
  {
    ScannerStars.FoundIffChanged(message);
    Verdict(ContainsSensitiveData(message), Redacted(message))
  }
}
