/**
 * The translation table of the application: one text per key in English (`en`) and in
 * Indonesian (`id`). A key is a constructor of `Key`, the way the TypeScript type
 * `keyof typeof translations.en` restricts the keys a caller may ask for; both tables are
 * total functions on `Key`, so the two languages define the same keys by construction.
 *
 * Texts longer than twenty characters are written as concatenations of short pieces that
 * join to the text of the table; the verifier reasons about short literals much more cheaply.
 * For the same reason the facts about the texts are proved a few texts at a time, and the
 * longest texts a few pieces at a time.
 */
module Translations {

  /** A translation key, grouped as the table groups them. */
  datatype Key =
    // Header
    | HeaderTitle
    | HistoryButton
    | HistoryButtonTooltip
    | SettingsButton
    | SettingsButtonTooltip
    // App Description
    | AppDescription
    | FooterText
    // Code Input
    | CodeInputPlaceholder
    | UploadFileButton
    | ClearInputButton
    | AnalyzeButton
    | AnalyzingButton
    | LoadedFromFile
    | FileReadError
    // Loader
    | LoaderTitle
    | LoaderSubtitle
    // Analysis Display
    | BugsCardTitle
    | LogsCardTitle
    | FeaturesCardTitle
    | CopyResultsButton
    | CopyBugButton
    | CopyButton
    | CopiedButton
    | LineLabel
    | NoBugsDetected
    | NoLogSuggestions
    | NoFeaturesFound
    | PotentialRisksLabel
    | EvidenceLabel
    // History Sidebar
    | HistoryTitle
    | HistoryCloseLabel
    | HistorySearchPlaceholder
    | HistoryImportButton
    | HistoryExportButton
    | HistoryClearButton
    | HistoryNoItemsTitle
    | HistoryNoItemsSubtitle
    | HistoryNoSearchResults
    | BugsCountTooltip
    // Settings Modal
    | SettingsTitle
    | SettingsCloseLabel
    | LanguageLabel
    // Alerts and Errors
    | AlertNoHistoryToExport
    | AlertImportInvalidJSON
    | ErrorInputMissingTitle
    | ErrorInputMissingMessage
    | ErrorAuthTitle
    | ErrorNetworkTitle
    | ErrorInvalidResponseTitle
    | ErrorAnalysisTitle
    | ErrorUnexpectedTitle
    | ErrorUnexpectedMessage
    | AnalysisResultTitlePrefix

  /** The `en` table (lib/translations.ts:2-72). */
  function EnglishText(key: Key): string
  {
    match key
    // Header
    case HeaderTitle => "Gemini Bug Detector"
    case HistoryButton => "History"
    case HistoryButtonTooltip => "Toggle History " +
                                "(Ctrl+H)"
    case SettingsButton => "Settings"
    case SettingsButtonTooltip => "Open Settings"
    // App Description
    case AppDescription => "Paste your code or " +
                          "upload a file below. " +
                          "Our AI will analyze " +
                          "it for bugs, suggest " +
                          "logging " +
                          "improvements, and " +
                          "summarize its " +
                          "features."
    case FooterText => "Powered by Google " +
                      "Gemini. Built by a " +
                      "world-class senior " +
                      "frontend React " +
                      "engineer."
    // Code Input
    case CodeInputPlaceholder => "Paste your code " +
                                "here... (Ctrl+Enter " +
                                "to analyze)"
    case UploadFileButton => "Upload File"
    case ClearInputButton => "Clear Input"
    case AnalyzeButton => "Analyze Code"
    case AnalyzingButton => "Analyzing..."
    case LoadedFromFile => "Loaded from"
    case FileReadError => "Error reading file"
    // Loader
    case LoaderTitle => "AI is analyzing your " +
                       "code..."
    case LoaderSubtitle => "This may take a " +
                          "moment."
    // Analysis Display
    case BugsCardTitle => "Bugs Detected"
    case LogsCardTitle => "Logging Suggestions"
    case FeaturesCardTitle => "Feature Discovery"
    case CopyResultsButton => "Copy results to " +
                             "clipboard"
    case CopyBugButton => "Copy bug details"
    case CopyButton => "Copy"
    case CopiedButton => "Copied!"
    case LineLabel => "Line"
    case NoBugsDetected => "No bugs detected. " +
                          "Great job!"
    case NoLogSuggestions => "No specific logging " +
                            "suggestions at this " +
                            "time."
    case NoFeaturesFound => "Could not determine " +
                           "specific features " +
                           "from the code."
    case PotentialRisksLabel => "Potential Risks"
    case EvidenceLabel => "Evidence"
    // History Sidebar
    case HistoryTitle => "Analysis History"
    case HistoryCloseLabel => "Close history " +
                             "sidebar"
    case HistorySearchPlaceholder => "Search history..."
    case HistoryImportButton => "Import"
    case HistoryExportButton => "Export"
    case HistoryClearButton => "Clear"
    case HistoryNoItemsTitle => "No History Found"
    case HistoryNoItemsSubtitle => "Your analysis " +
                                  "history will appear " +
                                  "here."
    case HistoryNoSearchResults => "No results match " +
                                  "your search."
    case BugsCountTooltip => "{{count}} bugs"
    // Settings Modal
    case SettingsTitle => "Settings"
    case SettingsCloseLabel => "Close settings"
    case LanguageLabel => "Language"
    // Alerts and Errors
    case AlertNoHistoryToExport => "There is no history " +
                                  "to export."
    case AlertImportInvalidJSON => "Import failed: The " +
                                  "file is not valid " +
                                  "JSON."
    case ErrorInputMissingTitle => "Input Missing"
    case ErrorInputMissingMessage => "Please enter some " +
                                    "code or upload a " +
                                    "file to analyze."
    case ErrorAuthTitle => "Authentication Error"
    case ErrorNetworkTitle => "Network Error"
    case ErrorInvalidResponseTitle => "Invalid Response"
    case ErrorAnalysisTitle => "Analysis Error"
    case ErrorUnexpectedTitle => "An Unexpected Error " +
                                "Occurred"
    case ErrorUnexpectedMessage => "Please check the " +
                                  "console for more " +
                                  "details."
    case AnalysisResultTitlePrefix => "Analysis of"
  }

  /** The `id` table (lib/translations.ts:73-142). */
  function IndonesianText(key: Key): string
  {
    match key
    // Header
    case HeaderTitle => "Detektor Bug Gemini"
    case HistoryButton => "Riwayat"
    case HistoryButtonTooltip => "Buka/Tutup Riwayat " +
                                "(Ctrl+H)"
    case SettingsButton => "Pengaturan"
    case SettingsButtonTooltip => "Buka Pengaturan"
    // App Description
    case AppDescription => "Tempel kode Anda " +
                          "atau unggah file di " +
                          "bawah ini. AI kami " +
                          "akan menganalisisnya " +
                          "untuk mencari bug, " +
                          "menyarankan " +
                          "perbaikan logging, " +
                          "dan merangkum " +
                          "fiturnya."
    case FooterText => "Didukung oleh Google " +
                      "Gemini. Dibuat oleh " +
                      "seorang insinyur " +
                      "frontend React " +
                      "senior kelas dunia."
    // Code Input
    case CodeInputPlaceholder => "Tempel kode Anda di " +
                                "sini... (Ctrl+Enter " +
                                "untuk menganalisis)"
    case UploadFileButton => "Unggah File"
    case ClearInputButton => "Bersihkan"
    case AnalyzeButton => "Analisis Kode"
    case AnalyzingButton => "Menganalisis..."
    case LoadedFromFile => "Dimuat dari"
    case FileReadError => "Gagal membaca file"
    // Loader
    case LoaderTitle => "AI sedang " +
                       "menganalisis kode " +
                       "Anda..."
    case LoaderSubtitle => "Ini mungkin memakan " +
                          "waktu sejenak."
    // Analysis Display
    case BugsCardTitle => "Bug Terdeteksi"
    case LogsCardTitle => "Saran Logging"
    case FeaturesCardTitle => "Penemuan Fitur"
    case CopyResultsButton => "Salin hasil ke " +
                             "clipboard"
    case CopyBugButton => "Salin detail bug"
    case CopyButton => "Salin"
    case CopiedButton => "Tersalin!"
    case LineLabel => "Baris"
    case NoBugsDetected => "Tidak ada bug yang " +
                          "terdeteksi. Kerja " +
                          "bagus!"
    case NoLogSuggestions => "Tidak ada saran " +
                            "logging khusus saat " +
                            "ini."
    case NoFeaturesFound => "Tidak dapat " +
                           "menentukan fitur " +
                           "spesifik dari kode."
    case PotentialRisksLabel => "Risiko Potensial"
    case EvidenceLabel => "Bukti"
    // History Sidebar
    case HistoryTitle => "Riwayat Analisis"
    case HistoryCloseLabel => "Tutup sidebar " +
                             "riwayat"
    case HistorySearchPlaceholder => "Cari riwayat..."
    case HistoryImportButton => "Impor"
    case HistoryExportButton => "Ekspor"
    case HistoryClearButton => "Hapus"
    case HistoryNoItemsTitle => "Tidak Ada Riwayat"
    case HistoryNoItemsSubtitle => "Riwayat analisis " +
                                  "Anda akan muncul di " +
                                  "sini."
    case HistoryNoSearchResults => "Tidak ada hasil yang " +
                                  "cocok dengan " +
                                  "pencarian Anda."
    case BugsCountTooltip => "{{count}} bug"
    // Settings Modal
    case SettingsTitle => "Pengaturan"
    case SettingsCloseLabel => "Tutup pengaturan"
    case LanguageLabel => "Bahasa"
    // Alerts and Errors
    case AlertNoHistoryToExport => "Tidak ada riwayat " +
                                  "untuk diekspor."
    case AlertImportInvalidJSON => "Impor gagal: File " +
                                  "bukan JSON yang " +
                                  "valid."
    case ErrorInputMissingTitle => "Input Kosong"
    case ErrorInputMissingMessage => "Silakan masukkan " +
                                    "kode atau unggah " +
                                    "file untuk " +
                                    "dianalisis."
    case ErrorAuthTitle => "Kesalahan Otentikasi"
    case ErrorNetworkTitle => "Kesalahan Jaringan"
    case ErrorInvalidResponseTitle => "Respons Tidak Valid"
    case ErrorAnalysisTitle => "Kesalahan Analisis"
    case ErrorUnexpectedTitle => "Terjadi Kesalahan " +
                                "Tak Terduga"
    case ErrorUnexpectedMessage => "Silakan periksa " +
                                  "konsol untuk detail " +
                                  "lebih lanjut."
    case AnalysisResultTitlePrefix => "Analisis dari"
  }

  /** A text that shows something and holds no `{{...}}` placeholder. */
  predicate Plain(text: string) {
    text != "" && '{' !in text
  }

  /** The English texts at lib/translations.ts:4-6 show something and hold no placeholder. */
  lemma HeaderEnglishPlain1()
    ensures Plain(EnglishText(HeaderTitle))
    ensures Plain(EnglishText(HistoryButton))
    ensures Plain(EnglishText(HistoryButtonTooltip))
  {
  }

  /** The English texts at lib/translations.ts:7-8 show something and hold no placeholder. */
  lemma HeaderEnglishPlain2()
    ensures Plain(EnglishText(SettingsButton))
    ensures Plain(EnglishText(SettingsButtonTooltip))
  {
  }

  /** The Indonesian texts at lib/translations.ts:75-76 show something and hold no placeholder. */
  lemma HeaderIndonesianPlain1()
    ensures Plain(IndonesianText(HeaderTitle))
    ensures Plain(IndonesianText(HistoryButton))
  {
  }

  /** The Indonesian texts at lib/translations.ts:77-78 show something and hold no placeholder. */
  lemma HeaderIndonesianPlain2()
    ensures Plain(IndonesianText(HistoryButtonTooltip))
    ensures Plain(IndonesianText(SettingsButton))
  {
  }

  /** The Indonesian texts at lib/translations.ts:79 show something and hold no placeholder. */
  lemma HeaderIndonesianPlain3()
    ensures Plain(IndonesianText(SettingsButtonTooltip))
  {
  }

  /** Pieces of the English text at lib/translations.ts:11. */
  lemma AppDescriptionEnglishPieces1()
    ensures '{' !in "Paste your code or "
    ensures '{' !in "upload a file below. "
  {
  }

  /** Pieces of the English text at lib/translations.ts:11. */
  lemma AppDescriptionEnglishPieces2()
    ensures '{' !in "Our AI will analyze "
    ensures '{' !in "it for bugs, suggest "
  {
  }

  /** Pieces of the English text at lib/translations.ts:11. */
  lemma AppDescriptionEnglishPieces3()
    ensures '{' !in "logging "
    ensures '{' !in "improvements, and "
  {
  }

  /** Pieces of the English text at lib/translations.ts:11. */
  lemma AppDescriptionEnglishPieces4()
    ensures '{' !in "summarize its "
    ensures '{' !in "features."
  {
  }

  /** Pieces of the English text at lib/translations.ts:12. */
  lemma FooterTextEnglishPieces1()
    ensures '{' !in "Powered by Google "
    ensures '{' !in "Gemini. Built by a "
  {
  }

  /** Pieces of the English text at lib/translations.ts:12. */
  lemma FooterTextEnglishPieces2()
    ensures '{' !in "world-class senior "
    ensures '{' !in "frontend React "
  {
  }

  /** Pieces of the English text at lib/translations.ts:12. */
  lemma FooterTextEnglishPieces3()
    ensures '{' !in "engineer."
  {
  }

  /** The English texts at lib/translations.ts:11 show something and hold no placeholder. */
  lemma AppDescriptionEnglishPlain1()
    ensures Plain(EnglishText(AppDescription))
  {
    AppDescriptionEnglishPieces1();
    AppDescriptionEnglishPieces2();
    AppDescriptionEnglishPieces3();
    AppDescriptionEnglishPieces4();
  }

  /** The English texts at lib/translations.ts:12 show something and hold no placeholder. */
  lemma AppDescriptionEnglishPlain2()
    ensures Plain(EnglishText(FooterText))
  {
    FooterTextEnglishPieces1();
    FooterTextEnglishPieces2();
    FooterTextEnglishPieces3();
  }

  /** Pieces of the Indonesian text at lib/translations.ts:82. */
  lemma AppDescriptionIndonesianPieces1()
    ensures '{' !in "Tempel kode Anda "
    ensures '{' !in "atau unggah file di "
  {
  }

  /** Pieces of the Indonesian text at lib/translations.ts:82. */
  lemma AppDescriptionIndonesianPieces2()
    ensures '{' !in "bawah ini. AI kami "
    ensures '{' !in "akan menganalisisnya "
  {
  }

  /** Pieces of the Indonesian text at lib/translations.ts:82. */
  lemma AppDescriptionIndonesianPieces3()
    ensures '{' !in "untuk mencari bug, "
    ensures '{' !in "menyarankan "
  {
  }

  /** Pieces of the Indonesian text at lib/translations.ts:82. */
  lemma AppDescriptionIndonesianPieces4()
    ensures '{' !in "perbaikan logging, "
    ensures '{' !in "dan merangkum "
  {
  }

  /** Pieces of the Indonesian text at lib/translations.ts:82. */
  lemma AppDescriptionIndonesianPieces5()
    ensures '{' !in "fiturnya."
  {
  }

  /** Pieces of the Indonesian text at lib/translations.ts:83. */
  lemma FooterTextIndonesianPieces1()
    ensures '{' !in "Didukung oleh Google "
    ensures '{' !in "Gemini. Dibuat oleh "
  {
  }

  /** Pieces of the Indonesian text at lib/translations.ts:83. */
  lemma FooterTextIndonesianPieces2()
    ensures '{' !in "seorang insinyur "
    ensures '{' !in "frontend React "
  {
  }

  /** Pieces of the Indonesian text at lib/translations.ts:83. */
  lemma FooterTextIndonesianPieces3()
    ensures '{' !in "senior kelas dunia."
  {
  }

  /** The Indonesian texts at lib/translations.ts:82 show something and hold no placeholder. */
  lemma AppDescriptionIndonesianPlain1()
    ensures Plain(IndonesianText(AppDescription))
  {
    AppDescriptionIndonesianPieces1();
    AppDescriptionIndonesianPieces2();
    AppDescriptionIndonesianPieces3();
    AppDescriptionIndonesianPieces4();
    AppDescriptionIndonesianPieces5();
  }

  /** The Indonesian texts at lib/translations.ts:83 show something and hold no placeholder. */
  lemma AppDescriptionIndonesianPlain2()
    ensures Plain(IndonesianText(FooterText))
  {
    FooterTextIndonesianPieces1();
    FooterTextIndonesianPieces2();
    FooterTextIndonesianPieces3();
  }

  /** Pieces of the English text at lib/translations.ts:15. */
  lemma CodeInputPlaceholderEnglishPieces1()
    ensures '{' !in "Paste your code "
    ensures '{' !in "here... (Ctrl+Enter "
  {
  }

  /** Pieces of the English text at lib/translations.ts:15. */
  lemma CodeInputPlaceholderEnglishPieces2()
    ensures '{' !in "to analyze)"
  {
  }

  /** The English texts at lib/translations.ts:15-17 show something and hold no placeholder. */
  lemma CodeInputEnglishPlain1()
    ensures Plain(EnglishText(CodeInputPlaceholder))
    ensures Plain(EnglishText(UploadFileButton))
    ensures Plain(EnglishText(ClearInputButton))
  {
    CodeInputPlaceholderEnglishPieces1();
    CodeInputPlaceholderEnglishPieces2();
  }

  /** The English texts at lib/translations.ts:18-19 show something and hold no placeholder. */
  lemma CodeInputEnglishPlain2()
    ensures Plain(EnglishText(AnalyzeButton))
    ensures Plain(EnglishText(AnalyzingButton))
  {
  }

  /** The English texts at lib/translations.ts:20-21 show something and hold no placeholder. */
  lemma CodeInputEnglishPlain3()
    ensures Plain(EnglishText(LoadedFromFile))
    ensures Plain(EnglishText(FileReadError))
  {
  }

  /** Pieces of the Indonesian text at lib/translations.ts:86. */
  lemma CodeInputPlaceholderIndonesianPieces1()
    ensures '{' !in "Tempel kode Anda di "
    ensures '{' !in "sini... (Ctrl+Enter "
  {
  }

  /** Pieces of the Indonesian text at lib/translations.ts:86. */
  lemma CodeInputPlaceholderIndonesianPieces2()
    ensures '{' !in "untuk menganalisis)"
  {
  }

  /** The Indonesian texts at lib/translations.ts:86-87 show something and hold no placeholder. */
  lemma CodeInputIndonesianPlain1()
    ensures Plain(IndonesianText(CodeInputPlaceholder))
    ensures Plain(IndonesianText(UploadFileButton))
  {
    CodeInputPlaceholderIndonesianPieces1();
    CodeInputPlaceholderIndonesianPieces2();
  }

  /** The Indonesian texts at lib/translations.ts:88-89 show something and hold no placeholder. */
  lemma CodeInputIndonesianPlain2()
    ensures Plain(IndonesianText(ClearInputButton))
    ensures Plain(IndonesianText(AnalyzeButton))
  {
  }

  /** The Indonesian texts at lib/translations.ts:90-91 show something and hold no placeholder. */
  lemma CodeInputIndonesianPlain3()
    ensures Plain(IndonesianText(AnalyzingButton))
    ensures Plain(IndonesianText(LoadedFromFile))
  {
  }

  /** The Indonesian texts at lib/translations.ts:92 show something and hold no placeholder. */
  lemma CodeInputIndonesianPlain4()
    ensures Plain(IndonesianText(FileReadError))
  {
  }

  /** The English texts at lib/translations.ts:24 show something and hold no placeholder. */
  lemma LoaderEnglishPlain1()
    ensures Plain(EnglishText(LoaderTitle))
  {
  }

  /** The English texts at lib/translations.ts:25 show something and hold no placeholder. */
  lemma LoaderEnglishPlain2()
    ensures Plain(EnglishText(LoaderSubtitle))
  {
  }

  /** Pieces of the Indonesian text at lib/translations.ts:95. */
  lemma LoaderTitleIndonesianPieces1()
    ensures '{' !in "AI sedang "
    ensures '{' !in "menganalisis kode "
  {
  }

  /** Pieces of the Indonesian text at lib/translations.ts:95. */
  lemma LoaderTitleIndonesianPieces2()
    ensures '{' !in "Anda..."
  {
  }

  /** The Indonesian texts at lib/translations.ts:95-96 show something and hold no placeholder. */
  lemma LoaderIndonesianPlain()
    ensures Plain(IndonesianText(LoaderTitle))
    ensures Plain(IndonesianText(LoaderSubtitle))
  {
    LoaderTitleIndonesianPieces1();
    LoaderTitleIndonesianPieces2();
  }

  /** Pieces of the English text at lib/translations.ts:37. */
  lemma NoLogSuggestionsEnglishPieces1()
    ensures '{' !in "No specific logging "
    ensures '{' !in "suggestions at this "
  {
  }

  /** Pieces of the English text at lib/translations.ts:37. */
  lemma NoLogSuggestionsEnglishPieces2()
    ensures '{' !in "time."
  {
  }

  /** Pieces of the English text at lib/translations.ts:38. */
  lemma NoFeaturesFoundEnglishPieces1()
    ensures '{' !in "Could not determine "
    ensures '{' !in "specific features "
  {
  }

  /** Pieces of the English text at lib/translations.ts:38. */
  lemma NoFeaturesFoundEnglishPieces2()
    ensures '{' !in "from the code."
  {
  }

  /** The English texts at lib/translations.ts:28-29 show something and hold no placeholder. */
  lemma AnalysisDisplayEnglishPlain1()
    ensures Plain(EnglishText(BugsCardTitle))
    ensures Plain(EnglishText(LogsCardTitle))
  {
  }

  /** The English texts at lib/translations.ts:30 show something and hold no placeholder. */
  lemma AnalysisDisplayEnglishPlain2()
    ensures Plain(EnglishText(FeaturesCardTitle))
  {
  }

  /** The English texts at lib/translations.ts:31-32 show something and hold no placeholder. */
  lemma AnalysisDisplayEnglishPlain3()
    ensures Plain(EnglishText(CopyResultsButton))
    ensures Plain(EnglishText(CopyBugButton))
  {
  }

  /** The English texts at lib/translations.ts:33-34 show something and hold no placeholder. */
  lemma AnalysisDisplayEnglishPlain4()
    ensures Plain(EnglishText(CopyButton))
    ensures Plain(EnglishText(CopiedButton))
  {
  }

  /** The English texts at lib/translations.ts:35-36 show something and hold no placeholder. */
  lemma AnalysisDisplayEnglishPlain5()
    ensures Plain(EnglishText(LineLabel))
    ensures Plain(EnglishText(NoBugsDetected))
  {
  }

  /** The English texts at lib/translations.ts:37-38 show something and hold no placeholder. */
  lemma AnalysisDisplayEnglishPlain6()
    ensures Plain(EnglishText(NoLogSuggestions))
    ensures Plain(EnglishText(NoFeaturesFound))
  {
    NoLogSuggestionsEnglishPieces1();
    NoLogSuggestionsEnglishPieces2();
    NoFeaturesFoundEnglishPieces1();
    NoFeaturesFoundEnglishPieces2();
  }

  /** The English texts at lib/translations.ts:39 show something and hold no placeholder. */
  lemma AnalysisDisplayEnglishPlain7()
    ensures Plain(EnglishText(PotentialRisksLabel))
  {
  }

  /** The English texts at lib/translations.ts:40 show something and hold no placeholder. */
  lemma AnalysisDisplayEnglishPlain8()
    ensures Plain(EnglishText(EvidenceLabel))
  {
  }

  /** Pieces of the Indonesian text at lib/translations.ts:107. */
  lemma NoBugsDetectedIndonesianPieces1()
    ensures '{' !in "Tidak ada bug yang "
    ensures '{' !in "terdeteksi. Kerja "
  {
  }

  /** Pieces of the Indonesian text at lib/translations.ts:107. */
  lemma NoBugsDetectedIndonesianPieces2()
    ensures '{' !in "bagus!"
  {
  }

  /** Pieces of the Indonesian text at lib/translations.ts:108. */
  lemma NoLogSuggestionsIndonesianPieces1()
    ensures '{' !in "Tidak ada saran "
    ensures '{' !in "logging khusus saat "
  {
  }

  /** Pieces of the Indonesian text at lib/translations.ts:108. */
  lemma NoLogSuggestionsIndonesianPieces2()
    ensures '{' !in "ini."
  {
  }

  /** Pieces of the Indonesian text at lib/translations.ts:109. */
  lemma NoFeaturesFoundIndonesianPieces1()
    ensures '{' !in "Tidak dapat "
    ensures '{' !in "menentukan fitur "
  {
  }

  /** Pieces of the Indonesian text at lib/translations.ts:109. */
  lemma NoFeaturesFoundIndonesianPieces2()
    ensures '{' !in "spesifik dari kode."
  {
  }

  /** The Indonesian texts at lib/translations.ts:99-100 show something and hold no placeholder. */
  lemma AnalysisDisplayIndonesianPlain1()
    ensures Plain(IndonesianText(BugsCardTitle))
    ensures Plain(IndonesianText(LogsCardTitle))
  {
  }

  /** The Indonesian texts at lib/translations.ts:101-102 show something and hold no placeholder. */
  lemma AnalysisDisplayIndonesianPlain2()
    ensures Plain(IndonesianText(FeaturesCardTitle))
    ensures Plain(IndonesianText(CopyResultsButton))
  {
  }

  /** The Indonesian texts at lib/translations.ts:103-104 show something and hold no placeholder. */
  lemma AnalysisDisplayIndonesianPlain3()
    ensures Plain(IndonesianText(CopyBugButton))
    ensures Plain(IndonesianText(CopyButton))
  {
  }

  /** The Indonesian texts at lib/translations.ts:105-106 show something and hold no placeholder. */
  lemma AnalysisDisplayIndonesianPlain4()
    ensures Plain(IndonesianText(CopiedButton))
    ensures Plain(IndonesianText(LineLabel))
  {
  }

  /** The Indonesian texts at lib/translations.ts:107-108 show something and hold no placeholder. */
  lemma AnalysisDisplayIndonesianPlain5()
    ensures Plain(IndonesianText(NoBugsDetected))
    ensures Plain(IndonesianText(NoLogSuggestions))
  {
    NoBugsDetectedIndonesianPieces1();
    NoBugsDetectedIndonesianPieces2();
    NoLogSuggestionsIndonesianPieces1();
    NoLogSuggestionsIndonesianPieces2();
  }

  /** The Indonesian texts at lib/translations.ts:109-110 show something and hold no placeholder. */
  lemma AnalysisDisplayIndonesianPlain6()
    ensures Plain(IndonesianText(NoFeaturesFound))
    ensures Plain(IndonesianText(PotentialRisksLabel))
  {
    NoFeaturesFoundIndonesianPieces1();
    NoFeaturesFoundIndonesianPieces2();
  }

  /** The Indonesian texts at lib/translations.ts:111 show something and hold no placeholder. */
  lemma AnalysisDisplayIndonesianPlain7()
    ensures Plain(IndonesianText(EvidenceLabel))
  {
  }

  /** Pieces of the English text at lib/translations.ts:50. */
  lemma HistoryNoItemsSubtitleEnglishPieces1()
    ensures '{' !in "Your analysis "
    ensures '{' !in "history will appear "
  {
  }

  /** Pieces of the English text at lib/translations.ts:50. */
  lemma HistoryNoItemsSubtitleEnglishPieces2()
    ensures '{' !in "here."
  {
  }

  /** The English texts at lib/translations.ts:43 show something and hold no placeholder. */
  lemma HistorySidebarEnglishPlain1()
    ensures Plain(EnglishText(HistoryTitle))
  {
  }

  /** The English texts at lib/translations.ts:44 show something and hold no placeholder. */
  lemma HistorySidebarEnglishPlain2()
    ensures Plain(EnglishText(HistoryCloseLabel))
  {
  }

  /** The English texts at lib/translations.ts:45 show something and hold no placeholder. */
  lemma HistorySidebarEnglishPlain3()
    ensures Plain(EnglishText(HistorySearchPlaceholder))
  {
  }

  /** The English texts at lib/translations.ts:46-47 show something and hold no placeholder. */
  lemma HistorySidebarEnglishPlain4()
    ensures Plain(EnglishText(HistoryImportButton))
    ensures Plain(EnglishText(HistoryExportButton))
  {
  }

  /** The English texts at lib/translations.ts:48 show something and hold no placeholder. */
  lemma HistorySidebarEnglishPlain5()
    ensures Plain(EnglishText(HistoryClearButton))
  {
  }

  /** The English texts at lib/translations.ts:49 show something and hold no placeholder. */
  lemma HistorySidebarEnglishPlain6()
    ensures Plain(EnglishText(HistoryNoItemsTitle))
  {
  }

  /** The English texts at lib/translations.ts:50 show something and hold no placeholder. */
  lemma HistorySidebarEnglishPlain7()
    ensures Plain(EnglishText(HistoryNoItemsSubtitle))
  {
    HistoryNoItemsSubtitleEnglishPieces1();
    HistoryNoItemsSubtitleEnglishPieces2();
  }

  /** The English texts at lib/translations.ts:51 show something and hold no placeholder. */
  lemma HistorySidebarEnglishPlain8()
    ensures Plain(EnglishText(HistoryNoSearchResults))
  {
  }

  /** Pieces of the Indonesian text at lib/translations.ts:121. */
  lemma HistoryNoItemsSubtitleIndonesianPieces1()
    ensures '{' !in "Riwayat analisis "
    ensures '{' !in "Anda akan muncul di "
  {
  }

  /** Pieces of the Indonesian text at lib/translations.ts:121. */
  lemma HistoryNoItemsSubtitleIndonesianPieces2()
    ensures '{' !in "sini."
  {
  }

  /** Pieces of the Indonesian text at lib/translations.ts:122. */
  lemma HistoryNoSearchResultsIndonesianPieces1()
    ensures '{' !in "Tidak ada hasil yang "
    ensures '{' !in "cocok dengan "
  {
  }

  /** Pieces of the Indonesian text at lib/translations.ts:122. */
  lemma HistoryNoSearchResultsIndonesianPieces2()
    ensures '{' !in "pencarian Anda."
  {
  }

  /** The Indonesian texts at lib/translations.ts:114 show something and hold no placeholder. */
  lemma HistorySidebarIndonesianPlain1()
    ensures Plain(IndonesianText(HistoryTitle))
  {
  }

  /** The Indonesian texts at lib/translations.ts:115 show something and hold no placeholder. */
  lemma HistorySidebarIndonesianPlain2()
    ensures Plain(IndonesianText(HistoryCloseLabel))
  {
  }

  /** The Indonesian texts at lib/translations.ts:116 show something and hold no placeholder. */
  lemma HistorySidebarIndonesianPlain3()
    ensures Plain(IndonesianText(HistorySearchPlaceholder))
  {
  }

  /** The Indonesian texts at lib/translations.ts:117-118 show something and hold no placeholder. */
  lemma HistorySidebarIndonesianPlain4()
    ensures Plain(IndonesianText(HistoryImportButton))
    ensures Plain(IndonesianText(HistoryExportButton))
  {
  }

  /** The Indonesian texts at lib/translations.ts:119 show something and hold no placeholder. */
  lemma HistorySidebarIndonesianPlain5()
    ensures Plain(IndonesianText(HistoryClearButton))
  {
  }

  /** The Indonesian texts at lib/translations.ts:120 show something and hold no placeholder. */
  lemma HistorySidebarIndonesianPlain6()
    ensures Plain(IndonesianText(HistoryNoItemsTitle))
  {
  }

  /** The Indonesian texts at lib/translations.ts:121 show something and hold no placeholder. */
  lemma HistorySidebarIndonesianPlain7()
    ensures Plain(IndonesianText(HistoryNoItemsSubtitle))
  {
    HistoryNoItemsSubtitleIndonesianPieces1();
    HistoryNoItemsSubtitleIndonesianPieces2();
  }

  /** The Indonesian texts at lib/translations.ts:122 show something and hold no placeholder. */
  lemma HistorySidebarIndonesianPlain8()
    ensures Plain(IndonesianText(HistoryNoSearchResults))
  {
    HistoryNoSearchResultsIndonesianPieces1();
    HistoryNoSearchResultsIndonesianPieces2();
  }

  /** The English texts at lib/translations.ts:55 show something and hold no placeholder. */
  lemma SettingsModalEnglishPlain1()
    ensures Plain(EnglishText(SettingsTitle))
  {
  }

  /** The English texts at lib/translations.ts:56 show something and hold no placeholder. */
  lemma SettingsModalEnglishPlain2()
    ensures Plain(EnglishText(SettingsCloseLabel))
  {
  }

  /** The English texts at lib/translations.ts:57 show something and hold no placeholder. */
  lemma SettingsModalEnglishPlain3()
    ensures Plain(EnglishText(LanguageLabel))
  {
  }

  /** The Indonesian texts at lib/translations.ts:126 show something and hold no placeholder. */
  lemma SettingsModalIndonesianPlain1()
    ensures Plain(IndonesianText(SettingsTitle))
  {
  }

  /** The Indonesian texts at lib/translations.ts:127 show something and hold no placeholder. */
  lemma SettingsModalIndonesianPlain2()
    ensures Plain(IndonesianText(SettingsCloseLabel))
  {
  }

  /** The Indonesian texts at lib/translations.ts:128 show something and hold no placeholder. */
  lemma SettingsModalIndonesianPlain3()
    ensures Plain(IndonesianText(LanguageLabel))
  {
  }

  /** Pieces of the English text at lib/translations.ts:61. */
  lemma AlertImportInvalidJSONEnglishPieces1()
    ensures '{' !in "Import failed: The "
    ensures '{' !in "file is not valid "
  {
  }

  /** Pieces of the English text at lib/translations.ts:61. */
  lemma AlertImportInvalidJSONEnglishPieces2()
    ensures '{' !in "JSON."
  {
  }

  /** Pieces of the English text at lib/translations.ts:63. */
  lemma ErrorInputMissingMessageEnglishPieces1()
    ensures '{' !in "Please enter some "
    ensures '{' !in "code or upload a "
  {
  }

  /** Pieces of the English text at lib/translations.ts:63. */
  lemma ErrorInputMissingMessageEnglishPieces2()
    ensures '{' !in "file to analyze."
  {
  }

  /** Pieces of the English text at lib/translations.ts:69. */
  lemma ErrorUnexpectedMessageEnglishPieces1()
    ensures '{' !in "Please check the "
    ensures '{' !in "console for more "
  {
  }

  /** Pieces of the English text at lib/translations.ts:69. */
  lemma ErrorUnexpectedMessageEnglishPieces2()
    ensures '{' !in "details."
  {
  }

  /** The English texts at lib/translations.ts:60 show something and hold no placeholder. */
  lemma AlertsAndErrorsEnglishPlain1()
    ensures Plain(EnglishText(AlertNoHistoryToExport))
  {
  }

  /** The English texts at lib/translations.ts:61 show something and hold no placeholder. */
  lemma AlertsAndErrorsEnglishPlain2()
    ensures Plain(EnglishText(AlertImportInvalidJSON))
  {
    AlertImportInvalidJSONEnglishPieces1();
    AlertImportInvalidJSONEnglishPieces2();
  }

  /** The English texts at lib/translations.ts:62 show something and hold no placeholder. */
  lemma AlertsAndErrorsEnglishPlain3()
    ensures Plain(EnglishText(ErrorInputMissingTitle))
  {
  }

  /** The English texts at lib/translations.ts:63 show something and hold no placeholder. */
  lemma AlertsAndErrorsEnglishPlain4()
    ensures Plain(EnglishText(ErrorInputMissingMessage))
  {
    ErrorInputMissingMessageEnglishPieces1();
    ErrorInputMissingMessageEnglishPieces2();
  }

  /** The English texts at lib/translations.ts:64 show something and hold no placeholder. */
  lemma AlertsAndErrorsEnglishPlain5()
    ensures Plain(EnglishText(ErrorAuthTitle))
  {
  }

  /** The English texts at lib/translations.ts:65 show something and hold no placeholder. */
  lemma AlertsAndErrorsEnglishPlain6()
    ensures Plain(EnglishText(ErrorNetworkTitle))
  {
  }

  /** The English texts at lib/translations.ts:66 show something and hold no placeholder. */
  lemma AlertsAndErrorsEnglishPlain7()
    ensures Plain(EnglishText(ErrorInvalidResponseTitle))
  {
  }

  /** The English texts at lib/translations.ts:67 show something and hold no placeholder. */
  lemma AlertsAndErrorsEnglishPlain8()
    ensures Plain(EnglishText(ErrorAnalysisTitle))
  {
  }

  /** The English texts at lib/translations.ts:68 show something and hold no placeholder. */
  lemma AlertsAndErrorsEnglishPlain9()
    ensures Plain(EnglishText(ErrorUnexpectedTitle))
  {
  }

  /** The English texts at lib/translations.ts:69 show something and hold no placeholder. */
  lemma AlertsAndErrorsEnglishPlain10()
    ensures Plain(EnglishText(ErrorUnexpectedMessage))
  {
    ErrorUnexpectedMessageEnglishPieces1();
    ErrorUnexpectedMessageEnglishPieces2();
  }

  /** The English texts at lib/translations.ts:70 show something and hold no placeholder. */
  lemma AlertsAndErrorsEnglishPlain11()
    ensures Plain(EnglishText(AnalysisResultTitlePrefix))
  {
  }

  /** Pieces of the Indonesian text at lib/translations.ts:132. */
  lemma AlertImportInvalidJSONIndonesianPieces1()
    ensures '{' !in "Impor gagal: File "
    ensures '{' !in "bukan JSON yang "
  {
  }

  /** Pieces of the Indonesian text at lib/translations.ts:132. */
  lemma AlertImportInvalidJSONIndonesianPieces2()
    ensures '{' !in "valid."
  {
  }

  /** Pieces of the Indonesian text at lib/translations.ts:134. */
  lemma ErrorInputMissingMessageIndonesianPieces1()
    ensures '{' !in "Silakan masukkan "
    ensures '{' !in "kode atau unggah "
  {
  }

  /** Pieces of the Indonesian text at lib/translations.ts:134. */
  lemma ErrorInputMissingMessageIndonesianPieces2()
    ensures '{' !in "file untuk "
    ensures '{' !in "dianalisis."
  {
  }

  /** Pieces of the Indonesian text at lib/translations.ts:140. */
  lemma ErrorUnexpectedMessageIndonesianPieces1()
    ensures '{' !in "Silakan periksa "
    ensures '{' !in "konsol untuk detail "
  {
  }

  /** Pieces of the Indonesian text at lib/translations.ts:140. */
  lemma ErrorUnexpectedMessageIndonesianPieces2()
    ensures '{' !in "lebih lanjut."
  {
  }

  /** The Indonesian texts at lib/translations.ts:131 show something and hold no placeholder. */
  lemma AlertsAndErrorsIndonesianPlain1()
    ensures Plain(IndonesianText(AlertNoHistoryToExport))
  {
  }

  /** The Indonesian texts at lib/translations.ts:132 show something and hold no placeholder. */
  lemma AlertsAndErrorsIndonesianPlain2()
    ensures Plain(IndonesianText(AlertImportInvalidJSON))
  {
    AlertImportInvalidJSONIndonesianPieces1();
    AlertImportInvalidJSONIndonesianPieces2();
  }

  /** The Indonesian texts at lib/translations.ts:133 show something and hold no placeholder. */
  lemma AlertsAndErrorsIndonesianPlain3()
    ensures Plain(IndonesianText(ErrorInputMissingTitle))
  {
  }

  /** The Indonesian texts at lib/translations.ts:134 show something and hold no placeholder. */
  lemma AlertsAndErrorsIndonesianPlain4()
    ensures Plain(IndonesianText(ErrorInputMissingMessage))
  {
    ErrorInputMissingMessageIndonesianPieces1();
    ErrorInputMissingMessageIndonesianPieces2();
  }

  /** The Indonesian texts at lib/translations.ts:135 show something and hold no placeholder. */
  lemma AlertsAndErrorsIndonesianPlain5()
    ensures Plain(IndonesianText(ErrorAuthTitle))
  {
  }

  /** The Indonesian texts at lib/translations.ts:136 show something and hold no placeholder. */
  lemma AlertsAndErrorsIndonesianPlain6()
    ensures Plain(IndonesianText(ErrorNetworkTitle))
  {
  }

  /** The Indonesian texts at lib/translations.ts:137 show something and hold no placeholder. */
  lemma AlertsAndErrorsIndonesianPlain7()
    ensures Plain(IndonesianText(ErrorInvalidResponseTitle))
  {
  }

  /** The Indonesian texts at lib/translations.ts:138 show something and hold no placeholder. */
  lemma AlertsAndErrorsIndonesianPlain8()
    ensures Plain(IndonesianText(ErrorAnalysisTitle))
  {
  }

  /** The Indonesian texts at lib/translations.ts:139 show something and hold no placeholder. */
  lemma AlertsAndErrorsIndonesianPlain9()
    ensures Plain(IndonesianText(ErrorUnexpectedTitle))
  {
  }

  /** The Indonesian texts at lib/translations.ts:140 show something and hold no placeholder. */
  lemma AlertsAndErrorsIndonesianPlain10()
    ensures Plain(IndonesianText(ErrorUnexpectedMessage))
  {
    ErrorUnexpectedMessageIndonesianPieces1();
    ErrorUnexpectedMessageIndonesianPieces2();
  }

  /** The Indonesian texts at lib/translations.ts:141 show something and hold no placeholder. */
  lemma AlertsAndErrorsIndonesianPlain11()
    ensures Plain(IndonesianText(AnalysisResultTitlePrefix))
  {
  }

  /**
   * Every text of both tables other than the bug-count tooltip shows something and holds
   * no placeholder.
   */
  lemma TextsArePlain(key: Key)
    requires key != BugsCountTooltip
    ensures Plain(EnglishText(key)) && Plain(IndonesianText(key))
  {
    match key
    case HeaderTitle => HeaderEnglishPlain1(); HeaderIndonesianPlain1();
    case HistoryButton => HeaderEnglishPlain1(); HeaderIndonesianPlain1();
    case HistoryButtonTooltip => HeaderEnglishPlain1(); HeaderIndonesianPlain2();
    case SettingsButton => HeaderEnglishPlain2(); HeaderIndonesianPlain2();
    case SettingsButtonTooltip => HeaderEnglishPlain2(); HeaderIndonesianPlain3();
    case AppDescription => AppDescriptionEnglishPlain1(); AppDescriptionIndonesianPlain1();
    case FooterText => AppDescriptionEnglishPlain2(); AppDescriptionIndonesianPlain2();
    case CodeInputPlaceholder => CodeInputEnglishPlain1(); CodeInputIndonesianPlain1();
    case UploadFileButton => CodeInputEnglishPlain1(); CodeInputIndonesianPlain1();
    case ClearInputButton => CodeInputEnglishPlain1(); CodeInputIndonesianPlain2();
    case AnalyzeButton => CodeInputEnglishPlain2(); CodeInputIndonesianPlain2();
    case AnalyzingButton => CodeInputEnglishPlain2(); CodeInputIndonesianPlain3();
    case LoadedFromFile => CodeInputEnglishPlain3(); CodeInputIndonesianPlain3();
    case FileReadError => CodeInputEnglishPlain3(); CodeInputIndonesianPlain4();
    case LoaderTitle => LoaderEnglishPlain1(); LoaderIndonesianPlain();
    case LoaderSubtitle => LoaderEnglishPlain2(); LoaderIndonesianPlain();
    case BugsCardTitle => AnalysisDisplayEnglishPlain1(); AnalysisDisplayIndonesianPlain1();
    case LogsCardTitle => AnalysisDisplayEnglishPlain1(); AnalysisDisplayIndonesianPlain1();
    case FeaturesCardTitle => AnalysisDisplayEnglishPlain2(); AnalysisDisplayIndonesianPlain2();
    case CopyResultsButton => AnalysisDisplayEnglishPlain3(); AnalysisDisplayIndonesianPlain2();
    case CopyBugButton => AnalysisDisplayEnglishPlain3(); AnalysisDisplayIndonesianPlain3();
    case CopyButton => AnalysisDisplayEnglishPlain4(); AnalysisDisplayIndonesianPlain3();
    case CopiedButton => AnalysisDisplayEnglishPlain4(); AnalysisDisplayIndonesianPlain4();
    case LineLabel => AnalysisDisplayEnglishPlain5(); AnalysisDisplayIndonesianPlain4();
    case NoBugsDetected => AnalysisDisplayEnglishPlain5(); AnalysisDisplayIndonesianPlain5();
    case NoLogSuggestions => AnalysisDisplayEnglishPlain6(); AnalysisDisplayIndonesianPlain5();
    case NoFeaturesFound => AnalysisDisplayEnglishPlain6(); AnalysisDisplayIndonesianPlain6();
    case PotentialRisksLabel => AnalysisDisplayEnglishPlain7(); AnalysisDisplayIndonesianPlain6();
    case EvidenceLabel => AnalysisDisplayEnglishPlain8(); AnalysisDisplayIndonesianPlain7();
    case HistoryTitle => HistorySidebarEnglishPlain1(); HistorySidebarIndonesianPlain1();
    case HistoryCloseLabel => HistorySidebarEnglishPlain2(); HistorySidebarIndonesianPlain2();
    case HistorySearchPlaceholder => HistorySidebarEnglishPlain3(); HistorySidebarIndonesianPlain3();
    case HistoryImportButton => HistorySidebarEnglishPlain4(); HistorySidebarIndonesianPlain4();
    case HistoryExportButton => HistorySidebarEnglishPlain4(); HistorySidebarIndonesianPlain4();
    case HistoryClearButton => HistorySidebarEnglishPlain5(); HistorySidebarIndonesianPlain5();
    case HistoryNoItemsTitle => HistorySidebarEnglishPlain6(); HistorySidebarIndonesianPlain6();
    case HistoryNoItemsSubtitle => HistorySidebarEnglishPlain7(); HistorySidebarIndonesianPlain7();
    case HistoryNoSearchResults => HistorySidebarEnglishPlain8(); HistorySidebarIndonesianPlain8();
    case SettingsTitle => SettingsModalEnglishPlain1(); SettingsModalIndonesianPlain1();
    case SettingsCloseLabel => SettingsModalEnglishPlain2(); SettingsModalIndonesianPlain2();
    case LanguageLabel => SettingsModalEnglishPlain3(); SettingsModalIndonesianPlain3();
    case AlertNoHistoryToExport => AlertsAndErrorsEnglishPlain1(); AlertsAndErrorsIndonesianPlain1();
    case AlertImportInvalidJSON => AlertsAndErrorsEnglishPlain2(); AlertsAndErrorsIndonesianPlain2();
    case ErrorInputMissingTitle => AlertsAndErrorsEnglishPlain3(); AlertsAndErrorsIndonesianPlain3();
    case ErrorInputMissingMessage => AlertsAndErrorsEnglishPlain4(); AlertsAndErrorsIndonesianPlain4();
    case ErrorAuthTitle => AlertsAndErrorsEnglishPlain5(); AlertsAndErrorsIndonesianPlain5();
    case ErrorNetworkTitle => AlertsAndErrorsEnglishPlain6(); AlertsAndErrorsIndonesianPlain6();
    case ErrorInvalidResponseTitle => AlertsAndErrorsEnglishPlain7(); AlertsAndErrorsIndonesianPlain7();
    case ErrorAnalysisTitle => AlertsAndErrorsEnglishPlain8(); AlertsAndErrorsIndonesianPlain8();
    case ErrorUnexpectedTitle => AlertsAndErrorsEnglishPlain9(); AlertsAndErrorsIndonesianPlain9();
    case ErrorUnexpectedMessage => AlertsAndErrorsEnglishPlain10(); AlertsAndErrorsIndonesianPlain10();
    case AnalysisResultTitlePrefix => AlertsAndErrorsEnglishPlain11(); AlertsAndErrorsIndonesianPlain11();
  }

  /**
   * The bug-count tooltip holds the `{{count}}` placeholder once, at its start, and nothing
   * after it that could be taken for another.
   */
  lemma BugsCountTooltipTexts()
    ensures EnglishText(BugsCountTooltip) == "{{count}}" + " bugs" && '{' !in " bugs"
    ensures IndonesianText(BugsCountTooltip) == "{{count}}" + " bug" && '{' !in " bug"
  {
  }

  /**
   * Every text of both tables shows something, so the `|| translations.en[key]` fallback of
   * the lookup never fires.
   */
  lemma TextsNonEmpty(key: Key)
    ensures EnglishText(key) != "" && IndonesianText(key) != ""
  {
    if key == BugsCountTooltip {
      BugsCountTooltipTexts();
    } else {
      TextsArePlain(key);
    }
  }
}
