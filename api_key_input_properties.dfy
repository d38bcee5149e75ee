/** What saving an API key guarantees, stated about the functions of module ApiKeyEntry. */
module ApiKeyEntryProperties {
  import opened Js
  import opened Toasts
  import opened ApiKeyEntry

  /** The input is accepted exactly when its first three characters are "sk-"; the emptiness check adds nothing. */
  lemma AcceptableIff(input: string)
    ensures Acceptable(input) <==> |input| >= 3 && input[0] == 's' && input[1] == 'k' && input[2] == '-'
  {
    if |input| >= 3 && input[0] == 's' && input[1] == 'k' && input[2] == '-' {
      assert input[..3] == KeyPrefix;
    }
  }

  /** An empty input, or one without the prefix, is rejected. */
  lemma RejectedInputs(input: string)
    ensures !Acceptable("")
    ensures !StartsWith(input, KeyPrefix) ==> !Acceptable(input)
    ensures !Acceptable("sk") && Acceptable("sk-") && !Acceptable("SK-abc") && !Acceptable(" sk-abc")
  {
    assert "sk-"[..3] == KeyPrefix;
    assert "SK-abc"[..3] != KeyPrefix by { assert "SK-abc"[0] != KeyPrefix[0]; }
    assert " sk-abc"[..3] != KeyPrefix by { assert " sk-abc"[0] != KeyPrefix[0]; }
  }

  /** A rejected save raises the error toast and keeps the key, the storage and the field. */
  lemma RejectedSaveKeepsKey(f: KeyForm)
    requires !Acceptable(f.inputValue)
    ensures var r := SaveSpec(f);
            && r.apiKey == f.apiKey && r.stored == f.stored && r.inputValue == f.inputValue
            && r.toasts == f.toasts + [InvalidKeyToast]
  {
  }

  /** An accepted save stores exactly the input, in the context and in storage. */
  lemma AcceptedSaveStoresInput(f: KeyForm)
    requires Acceptable(f.inputValue)
    ensures var r := SaveSpec(f);
            && r.apiKey == f.inputValue && r.stored == Some(f.inputValue) && r.inputValue == f.inputValue
            && r.toasts == f.toasts + [SavedToast]
  {
  }

  /** A save changes the key only to an acceptable one, which passes the start guard of the controls. */
  lemma SavedKeysAreAcceptable(f: KeyForm)
    ensures var r := SaveSpec(f);
            r.apiKey != f.apiKey ==> Acceptable(r.apiKey) && r.apiKey != ""
  {
  }

  /** A saved key survives a reload: a fresh mount starts with it, in the context and in the field. */
  lemma SavedKeyReloads(f: KeyForm)
    requires Acceptable(f.inputValue)
    ensures var m := Mounted(SaveSpec(f).stored);
            m.apiKey == f.inputValue && m.inputValue == f.inputValue
  {
  }

  /** The field starts equal to the stored key, and is empty when nothing is stored. */
  lemma MountShowsStoredKey(stored: Option<string>)
    ensures Mounted(stored).inputValue == Mounted(stored).apiKey == LoadedKey(stored)
    ensures stored.None? ==> Mounted(stored).inputValue == ""
    ensures !Mounted(stored).showApiKey
  {
  }

  /** Saving twice stores what saving once does. */
  lemma SaveIdempotent(f: KeyForm)
    ensures var once := SaveSpec(f);
            var twice := SaveSpec(once);
            twice.apiKey == once.apiKey && twice.stored == once.stored
  {
  }

  /** The key is hidden exactly when the toggle offers "Show". */
  lemma ToggleShowsKey(showApiKey: bool)
    ensures InputType(showApiKey) == "password" <==> ToggleLabel(showApiKey) == "Show"
    ensures InputType(!showApiKey) != InputType(showApiKey)
  {
  }
}
