/** The transcription settings record and its advisory validation
    (config/settings.py). */
module Settings {
  import opened Common

  datatype TranscriptionSettings = TranscriptionSettings(
    modelKey: string,
    device: string,
    beamSize: int,
    batchSize: int,
    outputFormat: string,
    taskMode: string,
    recursive: bool,
    selectedExtensions: seq<string>)

  const CpuBatchAdvisory: string :=
    "CPU batch size > 8 may reduce performance. Consider reducing batch size for better results."

  /** The only rule: a CPU run with a batch larger than 8 draws one
      non-blocking performance warning. The device name is compared
      without regard to case. */
  function Validate(s: TranscriptionSettings): (warnings: seq<string>)
    ensures |warnings| <= 1
    ensures warnings != [] <==> Lower(s.device) == "cpu" && s.batchSize > 8
    ensures forall w :: w in warnings ==> w == CpuBatchAdvisory
  {
    var warnings := [];
    if Lower(s.device) == "cpu" && s.batchSize > 8 then warnings + [CpuBatchAdvisory] else warnings
  }

  /** The device names that count as "cpu" are exactly the eight spellings
      of c, p, u in either case. */
  lemma CpuSpellings(device: string)
    ensures Lower(device) == "cpu" <==>
      |device| == 3 && (device[0] == 'c' || device[0] == 'C')
                    && (device[1] == 'p' || device[1] == 'P')
                    && (device[2] == 'u' || device[2] == 'U')
  {
    if |device| == 3 {
      var l := Lower(device);
      assert l == "cpu" <==> l[0] == 'c' && l[1] == 'p' && l[2] == 'u';
      LowerCharOf(device[0], 'c', 'C');
      LowerCharOf(device[1], 'p', 'P');
      LowerCharOf(device[2], 'u', 'U');
    }
  }

  /** The characters that lower-case to a given lower-case letter. */
  lemma LowerCharOf(c: char, lower: char, upper: char)
    requires 'a' <= lower <= 'z' && upper as int == lower as int - 'a' as int + 'A' as int
    ensures LowerChar(c) == lower <==> c == lower || c == upper
  {
  }

  /** Two device names that differ only in case give the same warnings. */
  lemma {:induction false} ValidateIgnoresCase(s: TranscriptionSettings, device: string)
    requires Lower(device) == Lower(s.device)
    ensures Validate(s.(device := device)) == Validate(s)
  {
  }
}
