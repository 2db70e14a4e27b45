/** VM names of agent slots: the printer, the parser, and the proof that they are inverse whatever the hash is. */
module VMName {
  import opened Integers
  import opened Sequences
  import Decimal

  /** The six hex digits that end a name, as a function of NAMESPACE/POD. */
  type NameHash = string -> string

  function Dashed(s: string): (r: string)
    ensures |r| == |s|
  {
    seq(|s|, i requires 0 <= i < |s| => if s[i] == '.' then '-' else s[i])
  }

  function VMNameForPod(hash: NameHash, namespace: string, pod: string): string {
    "vk-" + namespace + "-" + Dashed(pod) + "-" + hash(namespace + "/" + pod)
  }

  function VMNameForDeployment(hash: NameHash, namespace: string, deployment: string, slot: int): string {
    VMNameForPod(hash, namespace, deployment + "-" + Decimal.Format(slot))
  }

  function AgentVMNamePrefix(namespace: string, cocoonSet: string): string {
    "vk-" + namespace + "-" + Dashed(cocoonSet) + "-"
  }

  /** The text before the first separator, or all of it. */
  function Before(s: string, sep: char): string {
    if s == [] || s[0] == sep then [] else [s[0]] + Before(s[1..], sep)
  }

  function ExtractAgentSlot(hash: NameHash, namespace: string, cocoonSet: string, vmName: string): int {
    var prefix := AgentVMNamePrefix(namespace, cocoonSet);
    if !(prefix <= vmName) then -1
    else
      var slot := Decimal.Parse(Before(vmName[|prefix|..], '-'));
      if slot.None? || VMNameForDeployment(hash, namespace, cocoonSet, slot.value) != vmName then -1
      else slot.value
  }

  lemma {:induction false} BeforeStopsAtFirstSeparator(word: string, sep: char, rest: string)
    requires sep !in word
    ensures Before(word + [sep] + rest, sep) == word
  {
    var s := word + [sep] + rest;
    if word == [] {
      assert s[0] == sep;
    } else {
      assert s[1..] == word[1..] + [sep] + rest;
      BeforeStopsAtFirstSeparator(word[1..], sep, rest);
    }
  }

  lemma {:induction false} BeforeHasNoSeparator(s: string, sep: char)
    ensures sep !in Before(s, sep)
  {
    if s != [] && s[0] != sep {
      BeforeHasNoSeparator(s[1..], sep);
    }
  }

  /** A slot's name is the agents' prefix, the slot in decimal, a dash and the hash. */
  lemma NameAfterPrefix(hash: NameHash, namespace: string, cocoonSet: string, slot: int)
    ensures VMNameForDeployment(hash, namespace, cocoonSet, slot)
         == AgentVMNamePrefix(namespace, cocoonSet) + (Decimal.Format(slot) + "-" + hash(namespace + "/" + (cocoonSet + "-" + Decimal.Format(slot))))
  {
    var digits := Decimal.Format(slot);
    assert forall i :: 0 <= i < |digits| ==> digits[i] != '.';
    assert Dashed(cocoonSet + "-" + digits) == Dashed(cocoonSet) + "-" + digits;
  }

  lemma PrintedSlotIsReadBack(hash: NameHash, namespace: string, cocoonSet: string, slot: int)
    requires 0 <= slot <= MAX_INT64
    ensures ExtractAgentSlot(hash, namespace, cocoonSet, VMNameForDeployment(hash, namespace, cocoonSet, slot)) == slot
  {
    var name := VMNameForDeployment(hash, namespace, cocoonSet, slot);
    var prefix := AgentVMNamePrefix(namespace, cocoonSet);
    var digits := Decimal.Format(slot);
    var tail := hash(namespace + "/" + (cocoonSet + "-" + digits));
    NameAfterPrefix(hash, namespace, cocoonSet, slot);
    assert name[|prefix|..] == digits + ['-'] + tail;
    assert '-' !in digits;
    BeforeStopsAtFirstSeparator(digits, '-', tail);
    Decimal.ParseOfFormat(slot);
  }

  lemma ParsedWithoutDashIsNatural(s: string)
    requires '-' !in s && Decimal.Parse(s).Some?
    ensures 0 <= Decimal.Parse(s).value <= MAX_INT64
  {
  }

  /** For every name: the parser answers a slot exactly when that slot prints the name, and otherwise -1. */
  lemma SlotOfNameIsExact(hash: NameHash, namespace: string, cocoonSet: string, vmName: string, slot: int)
    requires 0 <= slot <= MAX_INT64
    ensures ExtractAgentSlot(hash, namespace, cocoonSet, vmName) == slot
       <==> vmName == VMNameForDeployment(hash, namespace, cocoonSet, slot)
    ensures -1 <= ExtractAgentSlot(hash, namespace, cocoonSet, vmName) <= MAX_INT64
  {
    if vmName == VMNameForDeployment(hash, namespace, cocoonSet, slot) {
      PrintedSlotIsReadBack(hash, namespace, cocoonSet, slot);
    }
    var prefix := AgentVMNamePrefix(namespace, cocoonSet);
    if prefix <= vmName {
      var word := Before(vmName[|prefix|..], '-');
      BeforeHasNoSeparator(vmName[|prefix|..], '-');
      if Decimal.Parse(word).Some? {
        ParsedWithoutDashIsNatural(word);
      }
    }
  }

  /** No two slots of a set share a name, even when the hashes collide. */
  lemma SlotNamesAreDistinct(hash: NameHash, namespace: string, cocoonSet: string, m: int, n: int)
    requires 0 <= m <= MAX_INT64 && 0 <= n <= MAX_INT64
    requires VMNameForDeployment(hash, namespace, cocoonSet, m) == VMNameForDeployment(hash, namespace, cocoonSet, n)
    ensures m == n
  {
    PrintedSlotIsReadBack(hash, namespace, cocoonSet, m);
    PrintedSlotIsReadBack(hash, namespace, cocoonSet, n);
  }

  // ----- The text of a name -----

  /** Two texts of one length that differ exactly where the first has a dot and the second a dash. */
  predicate DotsAreDashes(s: string, t: string) {
    && |t| == |s|
    && '.' !in t
    && forall i :: 0 <= i < |s| ==> t[i] == s[i] || (s[i] == '.' && t[i] == '-')
  }

  /** A name is "vk-", the namespace, the pod with its dots as dashes and the hash of the pod as it was given. */
  lemma NameText(hash: NameHash, namespace: string, pod: string) returns (dashed: string)
    ensures DotsAreDashes(pod, dashed)
    ensures VMNameForPod(hash, namespace, pod) == "vk-" + namespace + "-" + dashed + "-" + hash(namespace + "/" + pod)
  {
    dashed := Dashed(pod);
  }

  /** Names have no dots, provided the namespace and the hash have none. */
  lemma NamesHaveNoDots(hash: NameHash, namespace: string, pod: string)
    requires '.' !in namespace && '.' !in hash(namespace + "/" + pod)
    ensures '.' !in VMNameForPod(hash, namespace, pod)
  {
    var dashed := NameText(hash, namespace, pod);
  }

  /** The agents' prefix is what all slots' names share: "vk-", the namespace and the set with its dots as dashes. */
  lemma PrefixText(namespace: string, cocoonSet: string) returns (dashed: string)
    ensures DotsAreDashes(cocoonSet, dashed)
    ensures AgentVMNamePrefix(namespace, cocoonSet) == "vk-" + namespace + "-" + dashed + "-"
  {
    dashed := Dashed(cocoonSet);
  }

  /** Slot `n` of a set is the pod SET-n. */
  lemma SlotText(hash: NameHash, namespace: string, cocoonSet: string, slot: int)
    ensures VMNameForDeployment(hash, namespace, cocoonSet, slot) == VMNameForPod(hash, namespace, cocoonSet + "-" + Decimal.Format(slot))
    ensures AgentVMNamePrefix(namespace, cocoonSet) <= VMNameForDeployment(hash, namespace, cocoonSet, slot)
  {
    NameAfterPrefix(hash, namespace, cocoonSet, slot);
  }
}
