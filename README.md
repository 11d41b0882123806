# audio-dataset-converter, modelled in Dafny

The audio-dataset-converter (`adc`) converts audio datasets between formats. A pipeline
has three stages:

- a reader that turns annotation files into records;
- any number of filters that transform records;
- a writer that saves the records' audio and annotations in another format.

A record is an `AudioData` value. It has two annotated variants:

- `AudioClassificationData`, whose annotation is a label;
- `SpeechData`, whose annotation is a transcript.

This project models that core in Dafny and proves properties of the model. The model
covers:

- the record API and its registry of data types, and the file-location helpers:
  `locate_file`, `locate_audio` and the parsing of function specifications;
- the base class of the audio augmentations with its seeded random stream, and the
  pitch-shift and time-stretch augmentations;
- the resample, convert-to-wav, convert-to-mono, trim-silence and strip-annotations
  filters;
- the FestVox, Common Voice, Hugging Face AudioFolder, TXT (speech and classification)
  and ADAMS (speech and classification) readers;
- the FestVox, Piper, Common Voice, TXT and audio-info writers.

Modelling choices:

- Pure code becomes datatypes, functions and lemmas.
- A reader, writer or filter object whose methods update fields becomes a `class`. Its
  `initialize`, `read`, `write_batch` and `finalize` become methods, each proved against a
  specification function.
- A generator becomes an outcome. The outcome holds the sequence of values yielded
  (`None` included) and the exception that ended it, if any.
- The file system is a map from path to content.
- The random generator is an oracle: a function of the calls made to it so far. A generator
  made without a seed draws from an oracle indexed by the calls the filter's own generator has
  answered by then, so its draw may differ for every record.
- Signal processing (resampling, pitch shifting, stretching, trimming) is passed in as
  function parameters.

The main results are:

- Write-then-read round trips.
  - A FestVox manifest written by the FestVox writer reads back through the FestVox reader
    as the records written, in order.
  - A Common Voice table written by the Common Voice writer reads back through the Common
    Voice reader the same way.
  - A TXT transcript reads back through the TXT speech reader.
- The FestVox line format parses back to the file name and transcription it was built from.
- The filters that convert or resample are idempotent.
- The augmentation base class makes one random draw per item, plus one for a per-item
  seed. A threshold of 1 leaves every item unchanged; a threshold of 0 in "replace" mode
  augments every item.
- The writers' per-directory dictionaries keep their insertion order and their lines.

## Model

| member | source | states |
|---|---|---|
| Records.MakeRecord | src/adc/api/_classification.py:13-21 | every constructor argument is stored unchanged; the name is the given one, and empty when neither name nor source is given |
| Records.NamedAfterSource | src/adc/api/_speech.py:13-21 | a record built from a source path alone is named after the basename of that path, which ends the path |
| Records.AnnotationToDict | src/adc/api/_classification.py:42-49 | a classification record gives `{"label": annotation}`, a speech record `{"transcript": annotation}`, a plain record none |
| Records.CheckAnnotationType | src/adc/api/_classification.py:32-40 | a classification record accepts exactly the string annotations; the other classes accept any |
| Records.DataTypeToKind | src/adc/api/_data_types.py:13-19 | "cl" gives the classification class and "sp" the speech class; any other code is the error "Unsupported data type: " plus the code |
| Records.DataTypesResolveDistinctly | src/adc/api/_data_types.py:5-19 | every registered code resolves to an annotated class, and different codes to different classes |
| Records.NoAnnotationWhenNoneOrEmpty | src/adc/api/_classification.py:23-30 | a record whose annotation is None or empty has no annotation |
| Utils.StripSuffix | src/adc/api/_utils.py:24-30 | no suffix or an empty one leaves the path; a path ending in the suffix loses it; any other path is kept |
| Utils.RelocatedPath | src/adc/api/_utils.py:49-52 | without a relative path the path is kept; with one it is the directory, the relative path and the basename joined, keeping the basename |
| Utils.Candidates | src/adc/api/_utils.py:54-56 | one candidate per extension, each the stem plus that extension, in the order given |
| Utils.ExistingSpec | src/adc/api/_utils.py:55-58 | the files found are exactly the candidates that exist, kept in candidate order |
| Utils.LocateFile | src/adc/api/_utils.py:48-59 | the loop returns the existing candidates of the relocated, suffix-stripped stem, in extension order |
| Utils.LocateAudio | src/adc/api/_utils.py:75-80 | the audio found is the first existing audio candidate, else None |
| Utils.AudioLocationOrder | src/adc/api/_utils.py:75-80 | ".mp3", ".MP3", ".wav" and ".WAV" are tried in that order and the first that exists is the audio; none gives None |
| Utils.ParseFunctionSpec | src/adc/api/_utils.py:93-96 | a specification without ":" is the format error; a parsed one is module, ":" and function, neither holding ":" |
| Utils.ParseFunctionSpecAccepts | src/adc/api/_utils.py:93-96 | "module:function" with parts free of ":" parses back to those two parts |
| Paths.Basename | src/adc/api/_utils.py:51 | the basename holds no "/" and ends the path |
| Paths.Splitext | src/adc/api/_utils.py:54 | stem and extension concatenate to the path; the extension is empty or a "." followed by no "." or "/" |
| Paths.SplitextFindsExtension | src/adc/api/_utils.py:54 | an extension is split off exactly when the last path component has a "." after a character other than "." |
| Paths.BasenameJoin | src/adc/api/_utils.py:50-52 | the basename of a directory joined with a name free of "/" is that name |
| Text.StripMeaning | src/adc/reader/speech/_festvox.py:115 | `strip()` leaves the part of the text between its leading and its trailing whitespace, and nothing else |
| Text.Strip | src/adc/reader/speech/_festvox.py:115 | the stripped text is empty or starts and ends with a non-whitespace character |
| Text.Lower | src/adc/reader/speech/_festvox.py:127 | an ASCII capital becomes its lower-case letter; every other character is kept |
| Text.TranslateNewlines | src/adc/reader/speech/_txt.py:127-128 | text read with newline translation holds no carriage return |
| Text.TranslateNewlinesNoCR | src/adc/reader/speech/_txt.py:127-128 | text without carriage returns is read unchanged |
| Randomness.SeededRandom.constructor | src/adc/filter/_base_audio_augmentation.py:98 | a generator seeded with the filter's seed starts with no calls made |
| Randomness.SeededRandom.Random | src/adc/filter/_base_audio_augmentation.py:163 | a draw returns the generator's uniform value for the calls so far and records one uniform call |
| Randomness.SeededRandom.RandInt | src/adc/filter/_base_audio_augmentation.py:169 | a draw returns the generator's seed value in the seed range for the calls so far and records one integer call |
| Randomness.FirstOf | src/adc/filter/_pitch_shift.py:168-169 | a generator made with a seed draws the value for that seed alone, whatever calls came before |
| Randomness.Interpolate | src/adc/filter/_pitch_shift.py:165-169 | equal bounds give the bound; otherwise the value lies between the bounds, the first included and, in exact arithmetic, the second excluded |
| BaseAugmentation.Suffix | src/adc/filter/_base_audio_augmentation.py:117-120 | the suffix is the configured one, else the augmenter's default |
| BaseAugmentation.AugmentationFilter.GetSuffix | src/adc/filter/_base_audio_augmentation.py:117-120 | the object's suffix is the configured one, else the augmenter's default |
| BaseAugmentation.AugmentedName | src/adc/filter/_base_audio_augmentation.py:172-173 | the new name starts with the old stem, ends with the old extension and is longer by the suffix; an empty suffix keeps the name |
| BaseAugmentation.AugmentWith | src/adc/filter/_base_audio_augmentation.py:174 | the augmented record has the new name and WAV format and keeps the sample rate, metadata and annotation |
| BaseAugmentation.ProcessItem | src/adc/filter/_base_audio_augmentation.py:156-182 | an item that cannot be augmented passes without a draw; below the threshold it passes after one draw; otherwise "add" emits the item and its copy, "replace" the copy, any other mode fails |
| BaseAugmentation.ProcessLength | src/adc/filter/_base_audio_augmentation.py:176-180 | without error a batch emits one or two records per item; "replace" emits exactly one per item |
| BaseAugmentation.ProcessCannotAugment | src/adc/filter/_base_audio_augmentation.py:158-160 | an augmenter that cannot augment passes the batch unchanged and draws nothing |
| BaseAugmentation.ProcessDraws | src/adc/filter/_base_audio_augmentation.py:163-171 | each item draws once, twice with per-item seeding, after the earlier history |
| BaseAugmentation.ProcessItemDraws | src/adc/filter/_base_audio_augmentation.py:163-171 | one item adds one draw to the history, plus one when seeding per item |
| BaseAugmentation.ProcessAlwaysAugments | src/adc/filter/_base_audio_augmentation.py:162-180 | with a threshold of at most 0 in "replace" mode every item is replaced by its copy with the suffixed name, in WAV |
| BaseAugmentation.ProcessNeverAugments | src/adc/filter/_base_audio_augmentation.py:162-165 | with a threshold of at least 1 every item passes unchanged after one uniform draw each |
| BaseAugmentation.AugmentationFilter.constructor | src/adc/filter/_base_audio_augmentation.py:29-56 | the options are stored and there is no generator yet |
| BaseAugmentation.AugmentationFilter.Initialize | src/adc/filter/_base_audio_augmentation.py:92-98 | the mode defaults to "replace", seeding to off and the threshold to 0; a fresh generator is seeded with the seed |
| BaseAugmentation.AugmentationFilter.ProcessOne | src/adc/filter/_base_audio_augmentation.py:156-182 | one item with the object's generator gives the outputs, error and history of the specification function |
| BaseAugmentation.AugmentationFilter.DoProcess | src/adc/filter/_base_audio_augmentation.py:154-184 | the loop over a batch gives the outputs, error and history of the specification function |
| PitchShiftFilter.Initialize | src/adc/filter/_pitch_shift.py:125-128 | bins per octave default to 12 and the resample type to the default; the step range is kept |
| PitchShiftFilter.Steps | src/adc/filter/_pitch_shift.py:163-169 | steps exist exactly when both bounds are set; equal bounds give the bound, otherwise the steps lie between the bounds, the first included and, in exact arithmetic, the second excluded |
| PitchShiftFilter.Augment | src/adc/filter/_pitch_shift.py:172-177 | without both bounds the item is returned; otherwise a record of the same class with the shifted audio, the new name and WAV format, keeping sample rate, metadata and annotation |
| TimeStretchFilter.Rate | src/adc/filter/_time_stretch.py:141-147 | a rate exists exactly when both bounds are set; equal bounds give the bound, otherwise the rate lies between the bounds, the first included and, in exact arithmetic, the second excluded |
| TimeStretchFilter.Augment | src/adc/filter/_time_stretch.py:150-155 | without both bounds the item is returned; otherwise a plain audio record with the stretched audio, the new name and WAV format, keeping sample rate, metadata and annotation |
| Resample.ResampleItem | src/adc/filter/_resample.py:131-141 | a record at the target rate is kept; any other becomes a WAV record at the target rate with a ".wav" name, keeping duration, metadata and annotation |
| Resample.ResampleItemIdempotent | src/adc/filter/_resample.py:131-141 | a resampled record is at the target rate, and resampling it again changes nothing |
| Resample.ResampleIdempotent | src/adc/filter/_resample.py:129-144 | resampling a resampled batch changes nothing |
| Resample.ResampleFilter.constructor | src/adc/filter/_resample.py:35-51 | the options are stored |
| Resample.ResampleFilter.Initialize | src/adc/filter/_resample.py:117-120 | the rate defaults to 22050 and the resample type to the default |
| Resample.ResampleFilter.DoProcess | src/adc/filter/_resample.py:129-144 | the loop yields each record resampled, in order |
| ConvertToWav.ConvertItem | src/adc/filter/_convert_to_wav.py:70-78 | the result is WAV; a WAV record is kept; any other gets a ".wav" name and keeps audio, duration, rate, metadata and annotation |
| ConvertToWav.ConvertIdempotent | src/adc/filter/_convert_to_wav.py:70-78 | every converted record is WAV, and converting again changes nothing |
| ConvertToWav.DoProcess | src/adc/filter/_convert_to_wav.py:68-81 | the loop yields each record converted, in order |
| ConvertToMono.MonoItem | src/adc/filter/_convert_to_mono.py:72-80 | the result is mono and keeps the name; a mono record is kept; any other gets the mono mix and keeps data, format, duration, rate, metadata and annotation |
| ConvertToMono.MonoIdempotent | src/adc/filter/_convert_to_mono.py:72-80 | every converted record is mono with its name kept, and converting again changes nothing |
| ConvertToMono.DoProcess | src/adc/filter/_convert_to_mono.py:70-83 | the loop yields each record converted, in order |
| TrimSilence.TrimItem | src/adc/filter/_trim_silence.py:121-128 | the trimmed record has the trimmed audio, a ".wav" name and WAV format, and keeps duration, rate, metadata and annotation |
| TrimSilence.TrimSilenceFilter.constructor | src/adc/filter/_trim_silence.py:17-36 | the options are stored |
| TrimSilence.TrimSilenceFilter.Initialize | src/adc/filter/_trim_silence.py:104-109 | top_db, frame length and hop length default to 60, 2048 and 512 |
| TrimSilence.TrimSilenceFilter.DoProcess | src/adc/filter/_trim_silence.py:118-131 | the loop yields each record trimmed, in order |
| StripAnnotations.Stripped | src/adc/filter/_strip_annotations.py:57-58 | the copy has no annotation and differs from the record in nothing else |
| StripAnnotations.StripSpec | src/adc/filter/_strip_annotations.py:54-64 | a single audio record is stripped and anything else dropped; a batch succeeds exactly when it holds no audio record |
| StripAnnotations.StripIntended | src/adc/filter/_strip_annotations.py:54-64 | the intended filter emits at most one record per item |
| StripAnnotations.StripIntendedClears | src/adc/filter/_strip_annotations.py:56-59 | no record the intended filter emits has an annotation |
| StripAnnotations.StripAgreesOnSingles | src/adc/filter/_strip_annotations.py:55-59 | whenever the code as written succeeds it agrees with the intended filter |
| StripAnnotations.StripIntendedOthers | src/adc/filter/_strip_annotations.py:60-62 | a batch of items that are not audio records gives nothing |
| StripAnnotations.StripBatchFails | src/adc/filter/_strip_annotations.py:57 | a batch holding one audio record fails as written but is stripped as intended |
| StripAnnotations.DoProcess | src/adc/filter/_strip_annotations.py:54-64 | the loop as written agrees with the specification function |
| ReaderSupport.Emit | src/adc/reader/speech/_festvox.py:131-135 | a missing audio file yields None before the record; the record is always yielded |
| ReaderSupport.RecordsOfEmit | src/adc/reader/speech/_festvox.py:131-135 | the records among what is yielded for one entry are exactly that record |
| ReaderSupport.ReadText | src/adc/reader/speech/_txt.py:127-128 | reading in text mode succeeds exactly when the file exists and leaves no carriage return |
| ReaderSupport.ReadRaw | src/adc/reader/speech/_commonvoice.py:135 | reading without newline translation succeeds exactly when the file exists and gives its content |
| ReaderSupport.FirstLine | src/adc/reader/speech/_commonvoice.py:137 | the first line is a prefix of the content ending in a line break, or the whole content |
| ReaderSupport.FirstLineOf | src/adc/reader/speech/_commonvoice.py:137 | a header without line breaks followed by "\n" or "\r\n" is read whole, with its line end |
| ReaderSupport.Column | src/adc/reader/speech/_commonvoice.py:153-167 | a column of a row is present exactly when the row is long enough |
| ReaderSupport.AsValue | src/adc/reader/speech/_commonvoice.py:159-166 | a present column becomes a string value, a missing one None |
| FestVoxReader.LastSeparator | src/adc/reader/speech/_festvox.py:13 | the greedy file-name group ends at the last `space-quote` separator, if there is one |
| FestVoxReader.SplitAtLastSeparator | src/adc/reader/speech/_festvox.py:13 | splitting a framed line at its last separator rebuilds the line, and the transcription holds no separator |
| FestVoxReader.ParseLineSound | src/adc/reader/speech/_festvox.py:122-126 | a line that matches is the format line of the file name and transcription extracted from it |
| FestVoxReader.ParseLineMatches | src/adc/reader/speech/_festvox.py:122-124 | a single line framed by "( " and "\" )" with a separator inside always matches |
| FestVoxReader.ParseFormatLine | src/adc/reader/speech/_festvox.py:122-126 | the format line of a file name and transcription parses back to exactly those two |
| FestVoxReader.LastSeparatorOfLine | src/adc/reader/speech/_festvox.py:13 | in name, separator, transcription the last separator is the one after the name |
| FestVoxReader.AudioFileName | src/adc/reader/speech/_festvox.py:127-128 | the audio file name ends in ".wav" in any case; one that already did is kept, others get ".wav" added |
| FestVoxReader.ClassifyMeaning | src/adc/reader/speech/_festvox.py:118-126 | a stripped line is blank, bad, or an entry whose format line it is |
| FestVoxReader.AudioPath | src/adc/reader/speech/_festvox.py:130 | the audio path ends in ".wav" |
| FestVoxReader.ReadLinesRecords | src/adc/reader/speech/_festvox.py:118-135 | every record a file yields is a speech record whose source ends in ".wav" (ignoring case), with a one-line annotation and no metadata |
| FestVoxReader.FirstBadSpec | src/adc/reader/speech/_festvox.py:122-124 | the first bad line is bad, and no line before it is |
| FestVoxReader.ReadLinesError | src/adc/reader/speech/_festvox.py:122-124 | reading fails exactly when some line is bad, with the first bad line in the error |
| FestVoxReader.ReadLinesOf | src/adc/reader/speech/_festvox.py:118-135 | the loop over the lines agrees with the specification function |
| FestVoxReader.FestVoxSpeechReader.constructor | src/adc/reader/speech/_festvox.py:21-40 | the relative path is stored and nothing is located yet |
| FestVoxReader.FestVoxSpeechReader.Initialize | src/adc/reader/speech/_festvox.py:99-101 | no input files is an error; otherwise the inputs are stored and the relative path defaults to "." |
| FestVoxReader.FestVoxSpeechReader.Read | src/adc/reader/speech/_festvox.py:110-135 | the first pending input is removed and read; no pending input is the error of an empty pop |
| CommonVoiceReader.HeaderAccepted | src/adc/reader/speech/_commonvoice.py:137-144 | the first line equals a header plus line feed exactly when the file starts with it |
| CommonVoiceReader.RowMetadataValues | src/adc/reader/speech/_commonvoice.py:159-166 | the metadata holds exactly the six named columns, each the row's value or None |
| CommonVoiceReader.RowYields | src/adc/reader/speech/_commonvoice.py:154-167 | a row fails exactly when it has no "path" column, with the error of joining None |
| CommonVoiceReader.RecordOfRowShape | src/adc/reader/speech/_commonvoice.py:154-167 | a row's record is a speech record whose source is the "path" column joined below the file's directory and the relative path, whose annotation is the "sentence" column and whose metadata is the six columns |
| CommonVoiceReader.RowsRecordsAt | src/adc/reader/speech/_commonvoice.py:153-167 | the rows' records are one per row, in order, each that row's record, for exactly the rows before the first one without a "path" column |
| CommonVoiceReader.ReadRowsRecords | src/adc/reader/speech/_commonvoice.py:153-167 | the records a file yields are exactly the rows' records, one per row and in order, up to the first row without a "path" column; each has the six metadata keys |
| CommonVoiceReader.RowYieldsRecords | src/adc/reader/speech/_commonvoice.py:154-167 | the records one row yields are exactly its record, with its source, transcript and metadata values |
| CommonVoiceReader.ReadRowsError | src/adc/reader/speech/_commonvoice.py:153-154 | reading fails exactly when some row lacks the "path" column, and then with the error of joining None |
| CommonVoiceReader.ReadRowsStops | src/adc/reader/speech/_commonvoice.py:153-154 | reading fails exactly when the rows' records end before the rows do |
| CommonVoiceReader.ReadRowsOf | src/adc/reader/speech/_commonvoice.py:153-167 | the loop over the rows agrees with the specification function |
| CommonVoiceReader.CommonVoiceSpeechReader.constructor | src/adc/reader/speech/_commonvoice.py:32-55 | the relative path is stored and nothing is located yet |
| CommonVoiceReader.CommonVoiceSpeechReader.Initialize | src/adc/reader/speech/_commonvoice.py:116-118 | the inputs are reset and the relative path defaults to "." |
| CommonVoiceReader.CommonVoiceSpeechReader.Read | src/adc/reader/speech/_commonvoice.py:127-167 | the inputs are located on the first call, then the first is removed and read; errors as the code raises them |
| HfAudioFolderReader.HeaderAccepted | src/adc/reader/speech/_hf_audiofolder.py:106-109 | the header followed by "\n" or "\r\n" is accepted after stripping |
| HfAudioFolderReader.RowRecordShape | src/adc/reader/speech/_hf_audiofolder.py:117-122 | a row becomes a speech record at its file path with its transcription column and no metadata |
| HfAudioFolderReader.DataRows | src/adc/reader/speech/_hf_audiofolder.py:116 | the rows the dictionary reader visits are the non-empty ones |
| HfAudioFolderReader.DataRowsMembers | src/adc/reader/speech/_hf_audiofolder.py:116 | a row is a data row exactly when it is a non-blank row of the file |
| HfAudioFolderReader.DataRowsAppend | src/adc/reader/speech/_hf_audiofolder.py:116 | the data rows keep the file's order: a further row is added at the end unless it is blank |
| HfAudioFolderReader.RowsYieldRecords | src/adc/reader/speech/_hf_audiofolder.py:116-122 | the records yielded are exactly one per non-empty row, in order |
| HfAudioFolderReader.ReadRowsOf | src/adc/reader/speech/_hf_audiofolder.py:116-122 | the loop over the rows agrees with the specification function |
| HfAudioFolderReader.HuggingFaceAudioFolderSpeechReader.constructor | src/adc/reader/speech/_hf_audiofolder.py:16-32 | nothing is located yet |
| HfAudioFolderReader.HuggingFaceAudioFolderSpeechReader.Initialize | src/adc/reader/speech/_hf_audiofolder.py:89 | no input files is an error; otherwise the inputs are stored |
| HfAudioFolderReader.HuggingFaceAudioFolderSpeechReader.Read | src/adc/reader/speech/_hf_audiofolder.py:98-122 | the first pending input is removed and read |
| SpeechTxtReader.StrippedText | src/adc/reader/speech/_txt.py:127-128 | the transcript is present exactly when the file exists, and has no surrounding whitespace |
| SpeechTxtReader.SpeakerPath | src/adc/reader/speech/_txt.py:138 | the speaker file is the input's stem plus the speaker suffix |
| SpeechTxtReader.Speaker | src/adc/reader/speech/_txt.py:136-144 | a speaker is read exactly when a suffix is set and the speaker file exists |
| SpeechTxtReader.SpeakerMetadata | src/adc/reader/speech/_txt.py:146-150 | metadata is set exactly when there is a speaker, and holds only the speaker key |
| SpeechTxtReader.ReadFileRecord | src/adc/reader/speech/_txt.py:127-151 | one file yields one speech record, preceded by None when no audio file is found |
| SpeechTxtReader.SpeechTxtReader.constructor | src/adc/reader/speech/_txt.py:15-44 | the options are stored and nothing is located yet |
| SpeechTxtReader.SpeechTxtReader.Initialize | src/adc/reader/speech/_txt.py:104-113 | the inputs are reset; relative path and speaker key get their defaults |
| SpeechTxtReader.SpeechTxtReader.Read | src/adc/reader/speech/_txt.py:122-151 | the inputs are located on the first call, then the first is removed and read |
| ClassificationTxtReader.ReadFileRecord | src/adc/reader/classification/_txt.py:113-121 | one file yields one classification record labelled with the stripped text |
| ClassificationTxtReader.ClassificationTxtReader.constructor | src/adc/reader/classification/_txt.py:14-37 | the relative path is stored and nothing is located yet |
| ClassificationTxtReader.ClassificationTxtReader.Initialize | src/adc/reader/classification/_txt.py:98-101 | no input files is an error; otherwise the inputs are stored and the relative path defaults to "." |
| ClassificationTxtReader.ClassificationTxtReader.Read | src/adc/reader/classification/_txt.py:110-121 | the first pending input is removed and read |
| AdamsReport.LastValue | src/adc/reader/speech/_adams.py:109-110 | a field's value is found exactly when the report holds the field, and is the value of its last occurrence |
| AdamsReport.GetStringValue | src/adc/reader/speech/_adams.py:120 | the string value is the text of the field's value |
| AdamsReport.FieldMapKeys | src/adc/reader/speech/_adams.py:108-110 | the metadata keys are the parseable names of the report's fields |
| AdamsReport.FieldMapLast | src/adc/reader/speech/_adams.py:108-110 | a field whose name does not recur later keeps its value in the metadata |
| AdamsReport.ReportMetadata | src/adc/reader/speech/_adams.py:108-112 | the metadata is None exactly when the report has no fields |
| AdamsReport.CollectMetadata | src/adc/reader/speech/_adams.py:108-112 | the loop over the fields agrees with the specification function |
| AdamsReport.Annotation | src/adc/reader/speech/_adams.py:119-122 | the annotation is present exactly when the report has a value for the field |
| AdamsReport.ReadFileRecord | src/adc/reader/speech/_adams.py:106-122 | one report yields one record with its metadata and annotation, preceded by None when no audio is found |
| AdamsReport.ReadReport | src/adc/reader/speech/_adams.py:106-122 | reading one report agrees with the specification function |
| AdamsSpeechReader.AdamsSpeechReader.constructor | src/adc/reader/speech/_adams.py:14-33 | the transcript field is stored and nothing is located yet |
| AdamsSpeechReader.AdamsSpeechReader.Initialize | src/adc/reader/speech/_adams.py:91-94 | a missing transcript field or no input files is an error; otherwise the inputs are stored |
| AdamsSpeechReader.AdamsSpeechReader.Read | src/adc/reader/speech/_adams.py:103-122 | the first pending input is removed and read as a speech report |
| AdamsClassificationReader.AdamsClassificationReader.constructor | src/adc/reader/classification/_adams.py:14-37 | the class field is stored and nothing is located yet |
| AdamsClassificationReader.AdamsClassificationReader.Initialize | src/adc/reader/classification/_adams.py:97-100 | a missing class field or no input files is an error; otherwise the inputs are stored |
| AdamsClassificationReader.AdamsClassificationReader.Read | src/adc/reader/classification/_adams.py:109-128 | the first pending input is removed and read as a classification report |
| WriterSupport.SavedEnd | src/adc/writer/speech/_festvox.py:123-126 | the audio of every item is saved below its sub-directory and relative path, in order |
| WriterSupport.ItemEntries | src/adc/writer/speech/_festvox.py:113-134 | a batch adds one entry per item, in order, each what the writer makes of that item and its placement |
| WriterSupport.WriteItemEntries | src/adc/writer/speech/_festvox.py:113-134 | the loop of a writer that does not raise registers every item's entry in order and saves the audio unless only annotations are written |
| WriterSupport.Stem | src/adc/writer/speech/_festvox.py:132 | the stem is a prefix of the audio name |
| WriterSupport.NoSplits | src/adc/writer/speech/_festvox.py:104 | the dictionary starts empty |
| WriterSupport.Add | src/adc/writer/speech/_festvox.py:129-134 | a new sub-directory is appended to the order; the item's line is appended to its own list only |
| WriterSupport.AccumulateValid | src/adc/writer/speech/_festvox.py:113-134 | the dictionary stays well formed over a batch |
| WriterSupport.AccumulateDirs | src/adc/writer/speech/_festvox.py:129-130 | the keys after a batch are the old ones plus the batch's sub-directories; the old order is kept as a prefix |
| WriterSupport.AccumulateLines | src/adc/writer/speech/_festvox.py:131-134 | each sub-directory's lines after a batch are its old lines plus the batch's lines for it, in order |
| WriterSupport.JoinLinesAppend | src/adc/writer/speech/_festvox.py:149-151 | writing one more line appends it and a line feed |
| WriterSupport.WriteLines | src/adc/writer/speech/_festvox.py:149-151 | the loop writes every line followed by a line feed |
| WriterSupport.Manifests | src/adc/writer/speech/_festvox.py:142-151 | one file per sub-directory, in insertion order |
| WriterSupport.ManifestAt | src/adc/writer/speech/_festvox.py:147-151 | the k-th file is the annotation file of the k-th sub-directory, holding its lines |
| WriterSupport.WriteManifests | src/adc/writer/speech/_festvox.py:142-151 | the loop over the sub-directories agrees with the specification function |
| FestVoxWriter.Entries | src/adc/writer/speech/_festvox.py:113-134 | each item contributes its sub-directory, and a line exactly when it is annotated: its FestVox line |
| FestVoxWriter.FestVoxSpeechWriter.constructor | src/adc/writer/speech/_festvox.py:13-40 | the options are stored and the dictionary is empty |
| FestVoxWriter.FestVoxSpeechWriter.Initialize | src/adc/writer/speech/_festvox.py:100-104 | the relative path defaults to "." and audio is written by default; the dictionary is emptied |
| FestVoxWriter.FestVoxSpeechWriter.WriteBatch | src/adc/writer/speech/_festvox.py:106-134 | the dictionary gains the batch's entries and the batch's audio is saved |
| FestVoxWriter.FestVoxSpeechWriter.Finalize | src/adc/writer/speech/_festvox.py:136-151 | each sub-directory gets "annotations.txt" with its lines |
| FestVoxWriter.OneDirLines | src/adc/writer/speech/_festvox.py:131-134 | items all placed in one sub-directory contribute exactly their lines, in order |
| FestVoxWriter.LineReadsBack | src/adc/writer/speech/_festvox.py:134 | a written FestVox line is classified by the reader as the entry of the item's stem and transcript |
| FestVoxWriter.SplitBreaksJoinLines | src/adc/writer/speech/_festvox.py:149-151 | the written file splits back into its lines |
| FestVoxWriter.ReadLinesBack | src/adc/writer/speech/_festvox.py:134 | the reader reads the written lines back as the items' records, without error |
| FestVoxWriter.ManifestLines | src/adc/writer/speech/_festvox.py:129-134 | a batch written from an empty dictionary stores the items' lines for their sub-directory |
| FestVoxWriter.ReadFileBack | src/adc/writer/speech/_festvox.py:147-151 | an annotation file written from readable items reads back as their records |
| FestVoxWriter.WriteThenRead | src/adc/writer/speech/_festvox.py:113-151 | what the writer stores for one sub-directory reads back as the items' records, in order |
| PiperWriter.Speaker | src/adc/writer/speech/_piper.py:151-153 | the speaker is the metadata value under the key, else "[unknown]" |
| PiperWriter.RowAsWrittenAgrees | src/adc/writer/speech/_piper.py:148-156 | when no speaker key is set, or the speaker is present, the row as written is the intended row |
| PiperWriter.MissingSpeakerRaises | src/adc/writer/speech/_piper.py:150-156 | a missing speaker raises as written, where the intended row names "[unknown]" |
| PiperWriter.RowIsJoin | src/adc/writer/speech/_piper.py:149-156 | a row is its fields joined by "\|" |
| PiperWriter.RowSplits | src/adc/writer/speech/_piper.py:149-156 | a row splits back into its two or three fields when none holds "\|" |
| PiperWriter.ItemError | src/adc/writer/speech/_piper.py:137-156 | an item raises for a non-WAV name when audio is written, else for a missing speaker of an annotated item when a speaker key is set, and for nothing else |
| PiperWriter.EntryOfAgrees | src/adc/writer/speech/_piper.py:145-157 | where the speaker is known or no key is set, the item's entry holds the intended row |
| PiperWriter.Entries | src/adc/writer/speech/_piper.py:127-157 | each item contributes its sub-directory and, when annotated and the row can be built, its row as the code builds it |
| PiperWriter.Processed | src/adc/writer/speech/_piper.py:127-157 | the batch gets through the items before the first that raises, and through all of them when none does |
| PiperWriter.BatchWithSpeakers | src/adc/writer/speech/_piper.py:127-157 | when every annotated item has its speaker, the batch raises exactly at the first non-WAV item (when audio is written) and registers the intended rows before it |
| PiperWriter.WriteItem | src/adc/writer/speech/_piper.py:128-157 | one item: nothing happens for a non-WAV name; otherwise the audio is saved (unless only annotations are written) and the item's entry is added, then its error, if any, is raised |
| PiperWriter.WriteItems | src/adc/writer/speech/_piper.py:127-157 | the loop saves and registers the items up to the one that raises; a missing speaker's item is saved and registered first, a non-WAV item is not |
| PiperWriter.PiperSpeechWriter.constructor | src/adc/writer/speech/_piper.py:14-48 | the options are stored and the dictionary is empty |
| PiperWriter.PiperSpeechWriter.Initialize | src/adc/writer/speech/_piper.py:112-118 | "wav", "metadata.csv" and audio writing are the defaults; the dictionary is emptied |
| PiperWriter.PiperSpeechWriter.WriteBatch | src/adc/writer/speech/_piper.py:120-157 | the dictionary gains the entries of the items the loop reaches, and the error is the one of the item that raises: a non-WAV name or the `TypeError` of a missing speaker |
| PiperWriter.PiperSpeechWriter.Finalize | src/adc/writer/speech/_piper.py:159-171 | each sub-directory gets the metadata file with its rows |
| CommonVoiceWriter.RowFields | src/adc/writer/speech/_commonvoice.py:134-145 | a row has the ten header columns, with the audio name under "path" and the transcript under "sentence" |
| CommonVoiceWriter.Entries | src/adc/writer/speech/_commonvoice.py:115-146 | each item contributes its sub-directory, and a row exactly when it is annotated: its Common Voice row |
| CommonVoiceWriter.WritableSpec | src/adc/writer/speech/_commonvoice.py:160-161 | the rows before the first unwritable one are writable, and that one is not |
| CommonVoiceWriter.TableErrorSpec | src/adc/writer/speech/_commonvoice.py:160-161 | writing a table fails exactly when some row holds a field the dialect cannot write |
| CommonVoiceWriter.WriteTable | src/adc/writer/speech/_commonvoice.py:158-161 | the loop writes the header and the rows up to the first unwritable one |
| CommonVoiceWriter.UntilErrorAt | src/adc/writer/speech/_commonvoice.py:154-161 | the files written are the tables in order; all but the last succeeded |
| CommonVoiceWriter.Tables | src/adc/writer/speech/_commonvoice.py:154-161 | one table per sub-directory, stopping at the first that fails |
| CommonVoiceWriter.TablesAt | src/adc/writer/speech/_commonvoice.py:156-161 | the k-th file is "annotations.tsv" of the k-th sub-directory holding its table |
| CommonVoiceWriter.WriteTables | src/adc/writer/speech/_commonvoice.py:154-161 | the loop over the sub-directories agrees with the specification function |
| CommonVoiceWriter.CommonVoiceSpeechWriter.constructor | src/adc/writer/speech/_commonvoice.py:14-39 | the options are stored and the dictionary is empty |
| CommonVoiceWriter.CommonVoiceSpeechWriter.Initialize | src/adc/writer/speech/_commonvoice.py:102-106 | the relative path defaults to "." and audio is written by default; the dictionary is emptied |
| CommonVoiceWriter.CommonVoiceSpeechWriter.WriteBatch | src/adc/writer/speech/_commonvoice.py:108-146 | the dictionary gains the batch's entries and the batch's audio is saved |
| CommonVoiceWriter.CommonVoiceSpeechWriter.Finalize | src/adc/writer/speech/_commonvoice.py:148-161 | the tables are written sub-directory by sub-directory until one fails |
| CommonVoiceWriter.RowMetadataWritten | src/adc/writer/speech/_commonvoice.py:134-145 | every written row reads back with the same constant metadata |
| CommonVoiceWriter.RowReadsBack | src/adc/writer/speech/_commonvoice.py:161 | a written row is a single line that splits back into its fields |
| CommonVoiceWriter.RowsWritable | src/adc/writer/speech/_commonvoice.py:160-161 | rows of readable items are all writable |
| CommonVoiceWriter.ReadRowsBack | src/adc/writer/speech/_commonvoice.py:160-161 | the reader reads the written rows back as the items' records, without error |
| CommonVoiceWriter.ReadTableBack | src/adc/writer/speech/_commonvoice.py:158-161 | a written table reads back as the items' records |
| CommonVoiceWriter.WriteThenRead | src/adc/writer/speech/_commonvoice.py:115-161 | what the writer stores for one sub-directory reads back as the items' records, in order |
| CommonVoiceWriter.UnwritableTranscript | src/adc/writer/speech/_commonvoice.py:137 | a transcript holding a tab or line break makes the table fail after the header |
| TxtWriter.TranscriptPath | src/adc/writer/speech/_txt.py:117 | the transcript path ends in ".txt" and its stem is a prefix of the audio path |
| TxtWriter.ItemOutput | src/adc/writer/speech/_txt.py:111-121 | an item saves its audio unless only annotations are written, then its transcript file when annotated |
| TxtWriter.MissingAnnotationRaises | src/adc/writer/speech/_txt.py:116-120 | as written, an item without annotation creates an empty transcript file and raises |
| TxtWriter.EmptyAnnotationWritten | src/adc/writer/speech/_txt.py:116-121 | as written, an empty transcript still gets a file holding a line feed |
| TxtWriter.AnnotatedAgrees | src/adc/writer/speech/_txt.py:116-121 | for annotated items the code as written and the intended behaviour agree |
| TxtWriter.StreamError | src/adc/writer/speech/_txt.py:102-121 | the stream raises exactly when some item has no annotation at all, with the `TypeError` of writing `None` |
| TxtWriter.StreamAgreesWhenAnnotated | src/adc/writer/speech/_txt.py:102-121 | when every item is annotated, the code as written performs the intended effects of every item and does not raise |
| TxtWriter.WriteItem | src/adc/writer/speech/_txt.py:111-121 | one item: its audio unless only annotations are written, then its transcript file, always opened; a missing annotation leaves it empty and raises |
| TxtWriter.WriteItems | src/adc/writer/speech/_txt.py:102-121 | the loop performs the items' effects as the code is written, in order, up to the item without annotation that raises |
| TxtWriter.TxtSpeechWriter.constructor | src/adc/writer/speech/_txt.py:13-36 | the option is stored |
| TxtWriter.TxtSpeechWriter.Initialize | src/adc/writer/speech/_txt.py:93-94 | audio is written by default |
| TxtWriter.TxtSpeechWriter.WriteStream | src/adc/writer/speech/_txt.py:96-121 | the items' effects as the code is written, in order, and the error of the first item without annotation |
| TxtWriter.TranscriptReadsBack | src/adc/writer/speech/_txt.py:119-121 | a written transcript file reads back through the TXT reader as one speech record with that transcript |
| AudioInfoWriter.KindLabel | src/adc/writer/_audioinfo.py:234-245 | classification records name the extra column "label", speech records "transcript", others none |
| AudioInfoWriter.FileSize | src/adc/writer/_audioinfo.py:203-216 | the size is the data's length, else the source file's size, else -1 |
| AudioInfoWriter.RowsOfCount | src/adc/writer/_audioinfo.py:225-245 | one row per classification or speech record |
| AudioInfoWriter.BatchRows | src/adc/writer/_audioinfo.py:225-245 | a batch fails exactly when some size cannot be determined; otherwise it appends one row per recognised record |
| AudioInfoWriter.LabelKept | src/adc/writer/_audioinfo.py:234-235 | once set, the label is never changed |
| AudioInfoWriter.LabelFromFirst | src/adc/writer/_audioinfo.py:234-245 | the label comes from the first recognised record |
| AudioInfoWriter.CollectRows | src/adc/writer/_audioinfo.py:225-245 | the loop agrees with the specification function |
| AudioInfoWriter.CsvHeader | src/adc/writer/_audioinfo.py:151 | the CSV header is the five fixed columns and the label |
| AudioInfoWriter.TextError | src/adc/writer/_audioinfo.py:125-127 | formatting the rows as text fails exactly when some row has no sample rate (`%d`) or no duration (`%f`) |
| AudioInfoWriter.TextErrorFirst | src/adc/writer/_audioinfo.py:125-127 | the text error is the one of the first row that cannot be formatted |
| AudioInfoWriter.OutputOf | src/adc/writer/_audioinfo.py:185-201 | the output goes to stdout without a file name; its body follows the format; the text format fails on a row without sample rate or duration; other formats are an error |
| AudioInfoWriter.DefaultFormatNotAChoice | src/adc/writer/_audioinfo.py:15-18 | the default format "text" is not among the offered choices, yet rows that can be formatted are output in it |
| AudioInfoWriter.EmptyRunLabel | src/adc/writer/_audioinfo.py:189-191 | with no recognised record the label defaults to "additional" |
| AudioInfoWriter.BatchNone | src/adc/writer/_audioinfo.py:225-245 | a batch of plain records changes nothing |
| AudioInfoWriter.AudioInfoWriter.constructor | src/adc/writer/_audioinfo.py:23-41 | the options are stored and no rows are collected |
| AudioInfoWriter.AudioInfoWriter.Initialize | src/adc/writer/_audioinfo.py:99-100 | the rows and the label are reset |
| AudioInfoWriter.AudioInfoWriter.WriteBatch | src/adc/writer/_audioinfo.py:218-245 | the rows and label are updated as the specification function says |
| AudioInfoWriter.AudioInfoWriter.Finalize | src/adc/writer/_audioinfo.py:247-252 | the output is the one `output_info` gives for the collected rows and heading |

## Left out

- Audio decoding and encoding, resampling, pitch shifting, time stretching, silence trimming
  and mono mixing are given as function parameters. The model states what the filters do with
  their results.
- The Mersenne Twister is an oracle: a function from the call history to the value drawn. The
  model fixes which draws happen and in what order, not their values.
- Seeding from the operating system (`Random(None)`) is an oracle too: the first draw of an
  unseeded generator is a function of the filter generator's call history, which differs for
  every record a run augments. Its actual entropy is not modelled.
- The parsing of ADAMS report files is not part of this model. A report is given as its
  sequence of fields.
- The quoting rules of Python's `csv` module, as the Hugging Face AudioFolder reader uses
  them, are an oracle parameter (`CsvParse`).
- Python's `str()` of non-string metadata values is carried as text (`Value.Other`).
- `locate_files` (globbing, input lists, `resume_from`) is an input: the list it returns is a
  method parameter.
- Placeholder expansion and the splitter's choices are inputs: each item's `Placement`.
- Logging, argument parsing and `os.makedirs` are left out. They do not change what is written.
- The file system is a map from path to content. There is no path normalisation, no
  permissions and no failure other than a missing file.
- AudioInfoWriter.FileSize: `os.path.getsize` is modelled as the length of the file's
  content in characters, not bytes.
- Text.LowerString: lower-casing covers ASCII letters only.
- Randomness.Interpolate: floating-point numbers are modelled as exact reals. The excluded
  second end (`lo <= v < hi`, `hi < v <= lo`) holds only in exact arithmetic. In Python's doubles
  `random() * (to - from) + from` can round to `to` itself (from 1.0, to
  1.0000000000000002, draw 0.9999999999999999), so there the value lies between the bounds
  with both included.
- PitchShiftFilter.Steps: the same exact-real model as `Randomness.Interpolate`. With
  doubles the steps may equal the second bound.
- TimeStretchFilter.Rate: the same exact-real model as `Randomness.Interpolate`. With
  doubles the rate may equal the second bound.
- Records.MakeRecord: the derivation of `audio_name` follows `NameFor` (the given name,
  else the basename of the source). The file that computes it, `_data.py`, is not part of
  this model.
- The values of the record properties (`duration`, `sample_rate`, `is_mono`) are taken as
  fields of the record, not computed from the audio.
- `load_function` is modelled only up to its `module:function` format check. Importing
  the module and looking up the function are dynamic loading.
- Temporary-file handling in `load_audio_from_file` and `load_audio_from_bytes` is audio I/O.
- The e-mail writer (`_send_email.py`) is a network wrapper and is not part of this model.
- The metadata filter and writer (`_attach_metadata.py`, `writer/_metadata.py`) only forward
  to the pipeline framework and are not part of this model.
- Plugin registration (`class_lister.py`, `name`, `description`, `accepts`, `generates`),
  the session and logger (`core.py`) and the command-line entry point (`tool/exec.py`) are
  not part of this model.
- The filters and writers take and return lists. The wrapping of a single item by
  `make_list` and the unwrapping of a one-element result by `flatten_list` are not modelled,
  except in the strip-annotations filter, where the single/batch distinction changes the
  outcome.
- The textual output of the audio-info writer formats floats with `%f`. The model carries
  the rows but not the float formatting.

## Findings

| source | as written | input that shows it | evidently intended | confidence | as-written member | corrected member |
|---|---|---|---|---|---|---|
| src/adc/writer/speech/_piper.py:150-156 | the warning for a missing speaker formats a string with two placeholders from one argument, so it raises `TypeError` | an annotated item without the speaker key in its metadata, with a speaker key configured | warn, then write the row with speaker "[unknown]" | not executed | PiperWriter.MissingSpeakerRaises | PiperWriter.RowAsWrittenAgrees |
| src/adc/writer/speech/_txt.py:116-121 | `if item.has_annotation:` tests the bound method, which is always true; an item without annotation then fails on `fp.write(None)` after creating an empty file | an item whose annotation is None | write a transcript file only for annotated items | not executed | TxtWriter.MissingAnnotationRaises | TxtWriter.StreamAgreesWhenAnnotated |
| src/adc/filter/_strip_annotations.py:57 | the loop duplicates `data`, the argument, rather than `item`; a list has no `duplicate`, so a batch with an audio record fails | a batch holding one audio record | strip the annotation from each audio record in the batch | not executed | StripAnnotations.StripBatchFails | StripAnnotations.StripIntendedClears |

The writer classes follow the code as written: the Piper writer raises at the item whose
speaker is missing, and the TXT writer raises at the item without annotation. The corrected
definitions (`Row`, `ItemOutput`, `IntendedOutput`) are proved to agree with them wherever
the code does not raise.

Other behaviours of the code that the model keeps as they are:

- The readers yield `None` for a missing audio file and then still yield the record.
- The Common Voice reader accepts only a header ended by "\n". A header ended by "\r\n" is
  rejected.
- The time-stretch augmentation builds a plain `AudioData` record, whatever the class of
  the item. The copy keeps the annotation but is no longer a speech or classification
  record.
- Trimming silence keeps the record's original duration, although the audio gets shorter.
- The audio-info writer's default format "text" is not among the formats offered on the
  command line.
- The text output of the audio-info writer fails on a row without sample rate or duration,
  since `%d` and `%f` do not accept `None`. The CSV and JSON outputs accept such rows.
