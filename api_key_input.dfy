/**
 * The `ApiKeyInput` component (frontend/src/components/ApiKeyInput.tsx) and the part of the
 * application context it writes through (`apiKey`, kept in local storage under one key).
 */
module ApiKeyEntry {
  import opened Js
  import opened Toasts

  const KeyPrefix := "sk-"
  const StorageKey := "hapaTranscribe_apiKey"
  const InvalidKeyToast :=
    Toast("Invalid API Key", "Please enter a valid OpenAI API key starting with \"sk-\"", ErrorKind, 5000)
  const SavedToast := Toast("API Key Saved", "Your OpenAI API key has been saved locally.", SuccessKind, 3000)

  /** The check of `handleSaveApiKey`: a non-empty input that starts with "sk-". */
  predicate Acceptable(input: string) {
    input != "" && StartsWith(input, KeyPrefix)
  }

  /** The context's initial key: the stored one, or "" when nothing is stored. */
  function LoadedKey(stored: Option<string>): (r: string)
    ensures stored.Some? ==> r == stored.value
    ensures stored.None? ==> r == ""
  {
    match stored
    case None => ToJsString(Or(Null, Str("")))
    case Some(k) => ToJsString(Or(Str(k), Str("")))
  }

  /** The form's state; `stored` is the local-storage entry for `StorageKey`. */
  datatype KeyForm = KeyForm(apiKey: string, stored: Option<string>, inputValue: string, showApiKey: bool,
                             toasts: seq<Toast>)

  /** A fresh mount over what local storage holds: the field starts equal to the key. */
  function Mounted(stored: Option<string>): KeyForm {
    var key := LoadedKey(stored);
    KeyForm(key, stored, key, false, [])
  }

  /** `handleSaveApiKey`: an acceptable input becomes the key, in the context and in storage. */
  function SaveSpec(f: KeyForm): KeyForm {
    if !Acceptable(f.inputValue) then f.(toasts := f.toasts + [InvalidKeyToast])
    else f.(apiKey := f.inputValue, stored := Some(f.inputValue), toasts := f.toasts + [SavedToast])
  }

  /** The input's `type`. */
  function InputType(showApiKey: bool): string {
    if showApiKey then "text" else "password"
  }

  /** The toggle button's text. */
  function ToggleLabel(showApiKey: bool): string {
    if showApiKey then "Hide" else "Show"
  }

  class ApiKeyInput {
    var apiKey: string
    var stored: Option<string>
    var inputValue: string
    var showApiKey: bool
    var toasts: seq<Toast>

    ghost function Snapshot(): KeyForm
      reads this
    {
      KeyForm(apiKey, stored, inputValue, showApiKey, toasts)
    }

    constructor (storage: Option<string>)
      ensures Snapshot() == Mounted(storage)
    {
      apiKey := LoadedKey(storage);
      stored := storage;
      inputValue := apiKey;
      showApiKey := false;
      toasts := [];
    }

    /** The input's `onChange`. */
    method Edit(value: string)
      modifies this
      ensures Snapshot() == old(Snapshot()).(inputValue := value)
    {
      inputValue := value;
    }

    method HandleSaveApiKey()
      modifies this
      ensures Snapshot() == SaveSpec(old(Snapshot()))
    {
      if inputValue == "" || !StartsWith(inputValue, KeyPrefix) {
        toasts := toasts + [InvalidKeyToast];
        return;
      }
      stored := Some(inputValue);
      apiKey := inputValue;
      toasts := toasts + [SavedToast];
    }

    method HandleToggleShowApiKey()
      modifies this
      ensures Snapshot() == old(Snapshot()).(showApiKey := !old(showApiKey))
    {
      showApiKey := !showApiKey;
    }
  }
}
