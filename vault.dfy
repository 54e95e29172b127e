/** The encrypted data file, modelled symbolically: a Fernet token is a value that records
    the key it was made under, so decryption succeeds exactly under that key; JSON
    serialisation of the dataset is a constructor that parsing takes apart again. */
module Vault {
  import opened Records

  datatype Option<T> = None | Some(value: T)

  type Bytes = seq<bv8>

  /** The symmetric key as read from the key file. */
  type Key = Bytes

  /** What a Fernet token carries besides the ciphertext: its creation time and a random IV.
      Both come from outside the program (clock, randomness), so callers supply them. */
  datatype Seal = Seal(timestamp: nat, iv: Bytes)

  /** The bytes handed to the cipher: either `json.dumps(dataset).encode()`, or some other
      byte string. The split is a modelling convention that the type does not enforce:
      `OtherBytes` is meant for bytes that are not a dataset's JSON text, and it never
      parses. */
  datatype Plaintext = JsonText(doc: Dataset) | OtherBytes(bytes: Bytes)

  /** The contents of the data file: an authenticated token made under some key, or bytes
      that are no valid token at all (a truncated or tampered file). */
  datatype Token = Sealed(key: Key, seal: Seal, plain: Plaintext) | Garbled(bytes: Bytes)

  /** `Fernet(key).encrypt(plain)`. */
  function Encrypt(key: Key, seal: Seal, plain: Plaintext): (t: Token)
    ensures t.Sealed? && t.key == key
  {
    Sealed(key, seal, plain)
  }

  /** `Fernet(key).decrypt(t)`; `None` stands for the raised `InvalidToken`. */
  function Decrypt(key: Key, t: Token): (r: Option<Plaintext>)
    ensures r.Some? <==> t.Sealed? && t.key == key
  {
    if t.Sealed? && t.key == key then Some(t.plain) else None
  }

  /** Decrypting under the encryption key gives back the plaintext, whatever the seal. */
  lemma DecryptEncrypt(key: Key, seal: Seal, plain: Plaintext)
    ensures Decrypt(key, Encrypt(key, seal, plain)) == Some(plain)
  {
  }

  /** Decrypting under another key fails detectably. */
  lemma DecryptWrongKey(key: Key, other: Key, seal: Seal, plain: Plaintext)
    requires key != other
    ensures Decrypt(other, Encrypt(key, seal, plain)) == None
  {
  }

  /** `json.dumps(d).encode()`: parsing the text gives the dataset back. */
  function Dumps(d: Dataset): (p: Plaintext)
    ensures Loads(p) == Some(d)
  {
    JsonText(d)
  }

  /** `json.loads(p)`; `None` stands for the raised decoding error. */
  function Loads(p: Plaintext): (r: Option<Dataset>)
    ensures r.Some? <==> p.JsonText?
  {
    match p
    case JsonText(d) => Some(d)
    case OtherBytes(_) => None
  }

  /** The key in use after start-up: an existing key file is read unchanged; otherwise a
      freshly generated key is written to the key file and used. */
  function StartupKey(keyFile: Option<Key>, generated: Key): (k: Key)
    ensures keyFile.Some? ==> k == keyFile.value
    ensures keyFile.None? ==> k == generated
  {
    match keyFile
    case Some(stored) => stored
    case None => generated
  }

  /** What `_load` puts in memory: the decoded file, or the empty dataset when the file is
      missing, does not decrypt under `key`, or does not parse. */
  function LoadedData(file: Option<Token>, key: Key): (d: Dataset)
    ensures d != map[] ==> file.Some? && Decrypt(key, file.value).Some?
                           && Loads(Decrypt(key, file.value).value) == Some(d)
    ensures file.None? ==> d == map[]
  {
    match file
    case None => map[]
    case Some(token) =>
      match Decrypt(key, token)
      case None => map[]
      case Some(plain) =>
        match Loads(plain)
        case None => map[]
        case Some(loaded) => loaded
  }

  /** Loading what `_save` wrote, with the same key, reproduces the saved dataset. */
  lemma LoadAfterSave(d: Dataset, key: Key, seal: Seal)
    ensures LoadedData(Some(Encrypt(key, seal, Dumps(d))), key) == d
  {
    DecryptEncrypt(key, seal, Dumps(d));
  }

  /** A file that is no valid token loads as the empty dataset, without failure. */
  lemma LoadGarbled(bytes: Bytes, key: Key)
    ensures LoadedData(Some(Garbled(bytes)), key) == map[]
  {
  }

  /** A file saved under another key also loads as the empty dataset: the previous data is
      silently dropped rather than reported. */
  lemma LoadUnderOtherKey(d: Dataset, key: Key, other: Key, seal: Seal)
    requires key != other
    ensures LoadedData(Some(Encrypt(key, seal, Dumps(d))), other) == map[]
  {
    DecryptWrongKey(key, other, seal, Dumps(d));
  }
}
