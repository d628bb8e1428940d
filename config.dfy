/**
 * Application settings (src/config.py): the upload limit and chunk size in
 * megabytes with their byte equivalents, and the list of accepted formats.
 * Loading from the environment is not modelled; a Settings value is what
 * loading produced.
 */
module Config {

  import opened Wrappers

  /** One megabyte as the source counts it: 1024 * 1024 bytes. */
  const MiB: nat := 1048576

  datatype Settings = Settings(
    openaiApiKey: string,
    mistralApiKey: Option<string>,
    databaseUrl: string,
    uploadDir: string,
    maxFileSizeMb: int,
    debug: bool,
    logLevel: string,
    supportedAudioFormats: seq<string>,
    chunkSizeMb: int,
    enableStreaming: bool)

  /** The formats the application accepts, in the order it lists them. */
  const SupportedAudioFormats: seq<string> := ["mp3", "wav", "m4a", "flac", "ogg"]

  /** The settings when no variable overrides a default; the OpenAI key has no default. */
  function Defaults(openaiApiKey: string): (s: Settings)
    ensures s.maxFileSizeMb == 500 && s.chunkSizeMb == 25
    ensures s.supportedAudioFormats == SupportedAudioFormats
  {
    Settings(
      openaiApiKey := openaiApiKey,
      mistralApiKey := None,
      databaseUrl := "sqlite:///data/sessions.db",
      uploadDir := "data/audio",
      maxFileSizeMb := 500,
      debug := false,
      logLevel := "INFO",
      supportedAudioFormats := SupportedAudioFormats,
      chunkSizeMb := 25,
      enableStreaming := true)
  }

  /** `max_file_size_bytes`: a whole number of megabytes, and dividing back gives the setting. */
  function MaxFileSizeBytes(s: Settings): (r: int)
    ensures r % MiB == 0 && r / MiB == s.maxFileSizeMb
    ensures r as real / MiB as real == s.maxFileSizeMb as real
  {
    s.maxFileSizeMb * MiB
  }

  /** `chunk_size_bytes`: a whole number of megabytes, and dividing back gives the setting. */
  function ChunkSizeBytes(s: Settings): (r: int)
    ensures r % MiB == 0 && r / MiB == s.chunkSizeMb
  {
    s.chunkSizeMb * MiB
  }

  /** A size in bytes as the source's megabyte figure `size / (1024 * 1024)`. */
  function SizeMb(bytes: int): real {
    bytes as real / MiB as real
  }

  /** The byte check of the validator and the megabyte check of the upload page agree. */
  lemma ByteAndMegabyteLimitsAgree(s: Settings, bytes: int)
    ensures bytes > MaxFileSizeBytes(s) <==> SizeMb(bytes) > s.maxFileSizeMb as real
  {
  }

  /** The default limits in bytes: 500 MB and 25 MB chunks. */
  lemma DefaultByteLimits(key: string)
    ensures MaxFileSizeBytes(Defaults(key)) == 524288000
    ensures ChunkSizeBytes(Defaults(key)) == 26214400
  {
  }

  /** "aac" is not in the default list, which holds five formats. */
  lemma AacIsNotSupported()
    ensures "aac" !in SupportedAudioFormats
    ensures |SupportedAudioFormats| == 5
  {
  }
}
