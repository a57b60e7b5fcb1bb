/** The wizard's progress states and their labels (src/lib/progress.ts). */
module Progress {
  datatype WizardProgress = Ready | PostBasic | PostDetails | Verify | Done

  /** The string value of each state: its key, written in capitals with underscores. */
  function Value(p: WizardProgress): (v: string)
    ensures |v| > 0
    ensures forall i :: 0 <= i < |v| ==> ('A' <= v[i] <= 'Z') || v[i] == '_'
  {
    match p
    case Ready => "READY"
    case PostBasic => "POST_BASIC"
    case PostDetails => "POST_DETAILS"
    case Verify => "VERIFY"
    case Done => "DONE"
  }

  /** `progressLabels[p]`: every state has a label. */
  function Label(p: WizardProgress): (text: string)
    ensures |text| > 0
  {
    match p
    case Ready => "Menunggu submit"
    case PostBasic => "Menyimpan Basic Info"
    case PostDetails => "Menyimpan Detail"
    case Verify => "Verifikasi akhir"
    case Done => "Selesai"
  }

  /** The five states, in declaration order. */
  function AllStates(): (all: seq<WizardProgress>)
    ensures |all| == 5
    ensures forall i, j :: 0 <= i < j < |all| ==> all[i] != all[j]
  {
    [Ready, PostBasic, PostDetails, Verify, Done]
  }

  /** Every state is one of the five listed. */
  lemma AllStatesComplete(p: WizardProgress)
    ensures p in AllStates()
  {
    match p
    case Ready => assert AllStates()[0] == p;
    case PostBasic => assert AllStates()[1] == p;
    case PostDetails => assert AllStates()[2] == p;
    case Verify => assert AllStates()[3] == p;
    case Done => assert AllStates()[4] == p;
  }

  /** Distinct states have distinct values. */
  lemma ValuesAreDistinct(p: WizardProgress, q: WizardProgress)
    requires p != q
    ensures Value(p) != Value(q)
  {
    assert Value(p)[|Value(p)| - 1] != Value(q)[|Value(q)| - 1] || |Value(p)| != |Value(q)|;
  }

  /** Distinct states have distinct labels. */
  lemma LabelsAreDistinct(p: WizardProgress, q: WizardProgress)
    requires p != q
    ensures Label(p) != Label(q)
  {
    assert Label(p)[4] != Label(q)[4] || Label(p)[|Label(p)| - 1] != Label(q)[|Label(q)| - 1];
  }

  /** The labels of the first and last states. */
  lemma EndpointLabels()
    ensures Label(Ready) == "Menunggu submit"
    ensures Label(Done) == "Selesai"
  {
  }
}
