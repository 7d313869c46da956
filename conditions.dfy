/**
 * Application conditions raised by the comparison, with their messages kept
 * structured and rendered to the exact text controller/state.go formats.
 */
module Conditions {
  import opened Resources

  datatype ConditionType =
    | ComparisonError
    | SharedResourceWarning
    | RepeatedResourceWarning
    | ExcludedResourceWarning
    | InvalidSpecError
    | UnknownError

  datatype Message =
    | RepeatedResource(key: ResourceKey, count: nat)
    | ExcludedResource(group: string, kind: string, name: string)
    | ClusterScopeTrackingFailed(gvk: string, name: string, cause: string)
    | UntrustedKey(cipher: string, keyID: string)
    | InvalidSignature(cipher: string, keyID: string, detail: string)
    | CouldNotVerify(revision: string)
    | NotSigned(revision: string)
    | MissingNamespace(name: string, gvk: string)
    | DiffFailed(cause: string)

  datatype Condition = Condition(ctype: ConditionType, message: Message)

  predicate IsDigit(c: char) { '0' <= c <= '9' }

  function DigitChar(d: nat): (c: char)
    requires d < 10
    ensures IsDigit(c) && c as int - '0' as int == d
  {
    (d + '0' as int) as char
  }

  /** The decimal text Go's %d prints for a non-negative integer. */
  function NatToString(n: nat): (s: string)
    ensures |s| >= 1
    ensures forall i :: 0 <= i < |s| ==> IsDigit(s[i])
    ensures n >= 10 ==> s[0] != '0'
    decreases n
  {
    if n < 10 then [DigitChar(n)] else NatToString(n / 10) + [DigitChar(n % 10)]
  }

  /** Reads a string of decimal digits back as a number. */
  function ParseDecimal(s: string): nat
    requires forall i :: 0 <= i < |s| ==> IsDigit(s[i])
    decreases |s|
  {
    if s == [] then 0
    else ParseDecimal(s[..|s| - 1]) * 10 + DigitValue(s[|s| - 1])
  }

  function DigitValue(c: char): nat
    requires IsDigit(c)
  {
    c as int - '0' as int
  }

  /** The count printed in a message is exactly the count: decimal printing round-trips. */
  lemma {:induction false} DecimalRoundTrip(n: nat)
    ensures ParseDecimal(NatToString(n)) == n
    decreases n
  {
    if n >= 10 {
      var s := NatToString(n);
      assert s[..|s| - 1] == NatToString(n / 10);
      DecimalRoundTrip(n / 10);
    }
  }

  /** Distinct counts print as distinct texts. */
  lemma CountTextInjective(m: nat, n: nat)
    requires NatToString(m) == NatToString(n)
    ensures m == n
  {
    DecimalRoundTrip(m);
    DecimalRoundTrip(n);
  }

  function Render(m: Message): string
  {
    match m
    case RepeatedResource(key, count) =>
      "Resource " + KeyString(key) + " appeared " + NatToString(count) + " times among application resources."
    case ExcludedResource(group, kind, name) =>
      "Resource " + group + "/" + kind + " " + name + " is excluded in the settings"
    case ClusterScopeTrackingFailed(gvk, name, cause) =>
      "failed to set app instance label on cluster-scoped resource " + gvk + "/" + name + ": " + cause
    case UntrustedKey(cipher, keyID) =>
      "Found good signature made with " + cipher + " key " + keyID + ", but this key is not allowed in AppProject"
    case InvalidSignature(cipher, keyID, detail) =>
      "Found signature made with " + cipher + " key " + keyID + ", but verification result was invalid: '" + detail + "'"
    case CouldNotVerify(revision) =>
      "Could not verify commit signature on revision '" + revision + "', check logs for more information."
    case NotSigned(revision) =>
      "Target revision " + revision + " in Git is " + "not signed" + ", but a signature is required"
    case MissingNamespace(name, gvk) =>
      "Namespace for " + name + " " + gvk + " is missing."
    case DiffFailed(cause) =>
      "Failed to compare desired state to live state: " + cause
  }

  ghost predicate Contains(s: string, part: string)
  {
    exists i, j :: 0 <= i <= j <= |s| && s[i..j] == part
  }

  /** The unsigned-revision message names the revision and says that it is not signed. */
  lemma NotSignedMessageNamesRevision(revision: string)
    ensures Contains(Render(NotSigned(revision)), revision)
    ensures Contains(Render(NotSigned(revision)), "not signed")
  {
    var head, mid, part, tail := "Target revision ", " in Git is ", "not signed", ", but a signature is required";
    var s := Render(NotSigned(revision));
    assert s == head + revision + mid + part + tail;
    assert s[|head|..|head| + |revision|] == revision;
    var k := |head| + |revision| + |mid|;
    assert s[k..k + |part|] == part;
  }

  lemma ContainsMiddle(head: string, part: string, tail: string)
    ensures Contains(head + part + tail, part)
  {
    var s := head + part + tail;
    assert s[|head|..|head| + |part|] == part;
  }

  /**
   * Every rendered message names the object, key, revision or cause it is
   * about, so no field a condition carries is lost in its text.
   */
  lemma ContainsSplit(s: string, head: string, part: string, tail: string)
    requires s == head + part + tail
    ensures Contains(s, part)
  {
    ContainsMiddle(head, part, tail);
  }

  lemma RendersTwoFields(s: string, a: string, x: string, b: string, y: string, c: string)
    requires s == a + x + b + y + c
    ensures Contains(s, x) && Contains(s, y)
  {
    assert s == a + x + (b + y + c);
    ContainsSplit(s, a, x, b + y + c);
    ContainsSplit(s, a + x + b, y, c);
  }

  /**
   * Every rendered message names the object, key, revision or cause it is
   * about, so no field a condition carries is lost in its text.
   */
  lemma RenderNamesItsSubject(m: Message)
    ensures m.ExcludedResource? ==> Contains(Render(m), m.name)
    ensures m.ClusterScopeTrackingFailed? ==> Contains(Render(m), m.name) && Contains(Render(m), m.cause)
    ensures m.UntrustedKey? ==> Contains(Render(m), m.keyID)
    ensures m.InvalidSignature? ==> Contains(Render(m), m.keyID) && Contains(Render(m), m.detail)
    ensures m.CouldNotVerify? ==> Contains(Render(m), m.revision)
    ensures m.MissingNamespace? ==> Contains(Render(m), m.name) && Contains(Render(m), m.gvk)
    ensures m.DiffFailed? ==> Contains(Render(m), m.cause)
  {
    match m
    case RepeatedResource(_, _) =>
    case ExcludedResource(group, kind, name) =>
      ContainsSplit(Render(m), "Resource " + group + "/" + kind + " ", name, " is excluded in the settings");
    case ClusterScopeTrackingFailed(gvk, name, cause) =>
      RendersTwoFields(Render(m), "failed to set app instance label on cluster-scoped resource " + gvk + "/", name, ": ", cause, "");
    case UntrustedKey(cipher, keyID) =>
      ContainsSplit(Render(m), "Found good signature made with " + cipher + " key ", keyID, ", but this key is not allowed in AppProject");
    case InvalidSignature(cipher, keyID, detail) =>
      RendersTwoFields(Render(m), "Found signature made with " + cipher + " key ", keyID, ", but verification result was invalid: '", detail, "'");
    case CouldNotVerify(revision) =>
      ContainsSplit(Render(m), "Could not verify commit signature on revision '", revision, "', check logs for more information.");
    case NotSigned(_) =>
    case MissingNamespace(name, gvk) =>
      RendersTwoFields(Render(m), "Namespace for ", name, " ", gvk, " is missing.");
    case DiffFailed(cause) =>
      ContainsSplit(Render(m), "Failed to compare desired state to live state: ", cause, "");
  }

  /** The repeated-resource message names the key and the count. */
  lemma RepeatedMessageNamesKeyAndCount(key: ResourceKey, count: nat)
    ensures Contains(Render(RepeatedResource(key, count)), KeyString(key))
    ensures Contains(Render(RepeatedResource(key, count)), NatToString(count))
  {
    var head := "Resource ";
    var mid := " appeared ";
    var ks := KeyString(key);
    var cs := NatToString(count);
    var s := Render(RepeatedResource(key, count));
    assert s == head + ks + mid + cs + " times among application resources.";
    assert s[|head|..|head| + |ks|] == ks;
    var k := |head| + |ks| + |mid|;
    assert s[k..k + |cs|] == cs;
  }
}
