/**
 The schema the program is compiled with: sections and keys in the order of
 config_write_file, the defaults of config_load_default and the bounds of the
 config_validate functions (src/config/config.c). Every key printed there is
 known to exactly the setter of its type.
 */
module ConfigSchema {
  import opened Wrappers
  import opened ConfigText
  import opened ConfigFile
  import opened ConfigRoundTrip

  function Bool(key: string, default: bool): Field { Field(key, Flag, B(default), 0, 0) }

  function Int(key: string, default: int, lo: int, hi: int): Field { Field(key, Signed, N(default), lo, hi) }

  function Uint(key: string, default: int, lo: int, hi: int): Field { Field(key, Unsigned, N(default), lo, hi) }

  function Str(key: string, default: string, cap: nat, lo: int, hi: int): Field { Field(key, Text(cap), S(default), lo, hi) }

  function GeneralFields(): seq<Field> {
    [Int("num_instances", 1, 1, 1024),
     Int("log_level", 2, 0, 4),
     Bool("verbose", false),
     Bool("debug", false),
     Str("log_file", "/var/log/uesim/uesim.log", 255, 0, 255),
     Bool("enable_syslog", false),
     Int("max_log_file_size", 10, 1, INT_MAX),
     Int("log_file_count", 5, 1, INT_MAX)]
  }

  function NetworkFields(): seq<Field> {
    [Str("gnb_ip", "127.0.0.1", 255, 0, 255),
     Int("gnb_ngap_port", 38412, 1, 65535),
     Int("gnb_gtpu_port", 2152, 1, 65535),
     Str("local_ip", "0.0.0.0", 255, 0, 255),
     Int("local_ngap_port", 0, 0, 65535),
     Int("local_gtpu_port", 0, 0, 65535),
     Int("connection_timeout", 30, 1, INT_MAX),
     Int("keepalive_interval", 30, 1, INT_MAX),
     Bool("enable_ipv6", false),
     Int("max_connections", 100, 1, INT_MAX)]
  }

  function UeFields(): seq<Field> {
    [Str("imsi_prefix", "00101", 255, 0, 255),
     Uint("imsi_start", 1000000000, 0, UINT_RANGE - 1),
     Str("msisdn_prefix", "12345", 255, 0, 255),
     Uint("msisdn_start", 100000, 0, UINT_RANGE - 1),
     Uint("tac", 1, 1, UINT_RANGE - 1),
     Str("mcc", "001", 7, 3, 3),
     Str("mnc", "01", 7, 2, 3),
     Str("imei", "", 255, 0, 255),
     Bool("random_imei", true),
     Str("apn", "internet", 255, 0, 255),
     Str("apn_type", "default", 255, 0, 255)]
  }

  function RrcFields(): seq<Field> {
    [Int("registration_timeout", 30, 1, INT_MAX),
     Int("establishment_timeout", 30, 1, INT_MAX),
     Int("reestablishment_timeout", 30, 1, INT_MAX),
     Int("handover_timeout", 30, 1, INT_MAX),
     Bool("enable_registration", true),
     Bool("enable_establishment", true),
     Bool("enable_reestablishment", true),
     Bool("enable_handover", true),
     Int("max_retransmissions", 5, 1, INT_MAX),
     Int("t300_value", 1000, 1, INT_MAX),
     Int("t301_value", 1000, 1, INT_MAX),
     Int("t302_value", 1000, 1, INT_MAX),
     Int("t304_value", 1000, 1, INT_MAX),
     Int("t310_value", 1000, 1, INT_MAX),
     Int("t311_value", 1000, 1, INT_MAX),
     Int("n310_value", 20, 1, INT_MAX),
     Int("n311_value", 1, 1, INT_MAX)]
  }

  function PdcpFields(): seq<Field> {
    [Int("max_pdu_size", 8192, 1, INT_MAX),
     Int("discard_timer", 500, 1, INT_MAX),
     Int("status_report_timer", 1000, 1, INT_MAX),
     Int("ciphering_algorithm", 2, 0, 3),
     Int("integrity_algorithm", 2, 0, 3),
     Bool("enable_ciphering", true),
     Bool("enable_integrity", true),
     Int("max_retransmissions", 5, 1, INT_MAX),
     Int("polling_pdu", 1000, 1, INT_MAX),
     Int("polling_byte", 1000000, 1, INT_MAX)]
  }

  function RlcFields(): seq<Field> {
    [Int("am_window_size", 512, 1, INT_MAX),
     Int("um_window_size", 256, 1, INT_MAX),
     Int("poll_retransmit_timer", 50, 1, INT_MAX),
     Int("reassembly_timer", 100, 1, INT_MAX),
     Int("status_prohibit_timer", 25, 1, INT_MAX),
     Int("max_retransmissions", 5, 1, INT_MAX),
     Bool("enable_arq", true),
     Int("buffer_size", 65536, 1, INT_MAX),
     Int("max_pdu_size", 8192, 1, INT_MAX),
     Bool("enable_segmentation", true)]
  }

  function MacFields(): seq<Field> {
    [Int("harq_processes", 16, 1, 16),
     Int("max_harq_retransmissions", 4, 1, INT_MAX),
     Int("tti_length", 1, 1, INT_MAX),
     Int("rach_preambles", 64, 1, INT_MAX),
     Int("rach_response_window", 10, 1, INT_MAX),
     Int("max_rach_transmissions", 7, 1, INT_MAX),
     Int("scheduling_requests", 32, 1, INT_MAX),
     Int("ul_grants", 32, 1, INT_MAX),
     Int("dl_grants", 32, 1, INT_MAX),
     Bool("enable_harq", true),
     Bool("enable_rach", true),
     Int("tb_size", 1024, 1, INT_MAX),
     Int("mcs", 10, 0, 28)]
  }

  function NasFields(): seq<Field> {
    [Int("registration_timer", 30, 1, INT_MAX),
     Int("authentication_timer", 30, 1, INT_MAX),
     Int("security_timer", 30, 1, INT_MAX),
     Int("pdu_session_timer", 30, 1, INT_MAX),
     Bool("enable_periodic_registration", true),
     Int("periodic_registration_time", 540, 1, INT_MAX),
     Int("max_registration_attempts", 5, 1, INT_MAX),
     Int("max_authentication_attempts", 5, 1, INT_MAX),
     Int("ciphering_algorithm", 2, 0, 3),
     Int("integrity_algorithm", 2, 0, 3),
     Bool("enable_5g_features", true),
     Int("max_pdu_sessions", 16, 1, 16),
     Bool("enable_sms", false),
     Bool("enable_voice", false)]
  }

  function PerformanceFields(): seq<Field> {
    [Int("thread_pool_size", 0, -INT_MAX - 1, INT_MAX),
     Int("rx_buffer_size", 65536, 1, INT_MAX),
     Int("tx_buffer_size", 65536, 1, INT_MAX),
     Int("memory_pool_size", 67108864, 1, INT_MAX),
     Bool("use_memory_pool", true),
     Int("max_queue_size", 1000, 1, INT_MAX),
     Int("worker_threads", 4, 0, INT_MAX),
     Int("io_threads", 2, 0, INT_MAX),
     Bool("enable_thread_affinity", false),
     Int("cpu_affinity_mask", 0, 0, INT_MAX),
     Bool("enable_async_io", true),
     Int("io_priority", 0, 0, 7)]
  }

  function SecurityFields(): seq<Field> {
    [Bool("stack_protection", true),
     Bool("aslr", true),
     Bool("secure_flags", true),
     Bool("enable_encryption", true),
     Bool("enable_integrity_protection", true),
     Str("key_file", "/etc/uesim/keys.pem", 255, 0, 255),
     Bool("enable_certificate_validation", true),
     Str("cert_file", "/etc/uesim/cert.pem", 255, 0, 255),
     Str("ca_file", "/etc/uesim/ca.pem", 255, 0, 255),
     Bool("enable_tls", false),
     Int("tls_version", 12, 12, 13),
     Bool("enable_pki", false)]
  }

  function TestFields(): seq<Field> {
    [Bool("enable_tests", false),
     Int("test_duration", 60, 1, INT_MAX),
     Str("report_file", "/var/log/uesim/test_report.txt", 255, 0, 255),
     Bool("enable_performance_tests", false),
     Bool("enable_stress_tests", false),
     Int("stress_test_duration", 300, 1, INT_MAX),
     Int("stress_test_concurrency", 100, 1, INT_MAX),
     Bool("enable_compliance_tests", false),
     Str("test_suite", "default", 255, 0, 255),
     Bool("generate_test_report", true),
     Bool("enable_coverage", false)]
  }

  function UesimSchema(): Schema {
    [Section("general", GeneralFields()),
     Section("network", NetworkFields()),
     Section("ue", UeFields()),
     Section("rrc", RrcFields()),
     Section("pdcp", PdcpFields()),
     Section("rlc", RlcFields()),
     Section("mac", MacFields()),
     Section("nas", NasFields()),
     Section("performance", PerformanceFields()),
     Section("security", SecurityFields()),
     Section("test", TestFields())]
  }

  // --- the names ---------------------------------------------------------------------------

  function At(s: string, p: nat): int { if p < |s| then s[p] as int else 0 }

  /** A number made of the length and three characters; equal names have equal numbers. */
  function Mark(s: string, p: nat, q: nat, r: nat): int {
    |s| + 100 * At(s, p) + 20_000 * At(s, q) + 4_000_000 * At(s, r)
  }

  ghost predicate HasMarks(fields: seq<Field>, lo: nat, hi: nat, p: nat, q: nat, r: nat, marks: seq<int>) {
    && lo <= hi <= |fields| == |marks|
    && forall i :: lo <= i < hi ==> Mark(fields[i].key, p, q, r) == marks[i]
  }

  predicate Distinct(marks: seq<int>) {
    forall i, j :: 0 <= i < j < |marks| ==> marks[i] != marks[j]
  }

  function GeneralMarks(): (r: seq<int>)
    ensures Distinct(r)
  {
    [442211013, 434170809, 474371807, 402010005, 434170808, 406030113, 438190917, 434170814]
  }

  lemma GeneralKeysMarked()
    ensures HasMarks(GeneralFields(), 0, 8, 0, 0, 0, GeneralMarks())
  {}

  function NetworkMarks(): (r: seq<int>)
    ensures Distinct(r)
  {
    [6, 450251213, 470351713, 450251208, 414070315, 466331615, 422110518, 474371818, 422110511, 442211015]
  }

  lemma NetworkKeysMarked()
    ensures HasMarks(NetworkFields(), 0, 10, 7, 7, 7, NetworkMarks())
  {}

  function UeMarks(): (r: seq<int>)
    ensures Distinct(r)
  {
    [438190911, 438190910, 462311513, 462311512, 389949703, 397989903, 442211003, 438190904, 389949711, 450251203, 450251208]
  }

  lemma UeKeysMarked()
    ensures HasMarks(UeFields(), 0, 11, 1, 1, 1, UeMarks())
  {}

  function RrcMarks(): (r: seq<int>)
    ensures Distinct(r)
  {
    [422071420, 390330121, 462031423, 402210416, 393950119, 393950120, 393950122, 393950115, 382410919,
     192971610, 196971610, 200971610, 208971610, 192991610, 196991610, 192991010, 196991010]
  }

  lemma RrcKeysMarked0()
    ensures HasMarks(RrcFields(), 0, 3, 0, 2, 3, RrcMarks())
  {}

  lemma RrcKeysMarked3()
    ensures HasMarks(RrcFields(), 3, 5, 0, 2, 3, RrcMarks())
  {}

  lemma RrcKeysMarked5()
    ensures HasMarks(RrcFields(), 5, 7, 0, 2, 3, RrcMarks())
  {}

  lemma RrcKeysMarked7()
    ensures HasMarks(RrcFields(), 7, 9, 0, 2, 3, RrcMarks())
  {}

  lemma RrcKeysMarked9()
    ensures HasMarks(RrcFields(), 9, 12, 0, 2, 3, RrcMarks())
  {}

  lemma RrcKeysMarked12()
    ensures HasMarks(RrcFields(), 12, 15, 0, 2, 3, RrcMarks())
  {}

  lemma RrcKeysMarked15()
    ensures HasMarks(RrcFields(), 15, 17, 0, 2, 3, RrcMarks())
  {}

  function PdcpMarks(): (r: seq<int>)
    ensures Distinct(r)
  {
    [462311512, 466331613, 406030119, 414070319, 486432119, 422110516, 442211016, 389949719, 450251211, 393969812]
  }

  lemma PdcpKeysMarked()
    ensures HasMarks(PdcpFields(), 0, 10, 8, 8, 8, PdcpMarks())
  {}

  function RlcMarks(): (r: seq<int>)
    ensures Distinct(r)
  {
    [389949714, 470351714, 450251221, 458291416, 462311521, 438190919, 406030110, 393969811, 438190912, 406030119]
  }

  lemma RlcKeysMarked()
    ensures HasMarks(RlcFields(), 0, 10, 0, 0, 0, RlcMarks())
  {}

  function MacMarks(): (r: seq<int>)
    ensures Distinct(r)
  {
    [446230414, 454270924, 414071610, 406031414, 462311420, 418090922, 422111519, 466331709, 466330009,
     418090111, 458290111, 11607, 10903]
  }

  lemma MacKeysMarked0()
    ensures HasMarks(MacFields(), 0, 4, 0, 7, 7, MacMarks())
  {}

  lemma MacKeysMarked4()
    ensures HasMarks(MacFields(), 4, 8, 0, 7, 7, MacMarks())
  {}

  lemma MacKeysMarked8()
    ensures HasMarks(MacFields(), 8, 13, 0, 7, 7, MacMarks())
  {}

  function NasMarks(): (r: seq<int>)
    ensures Distinct(r)
  {
    [458291418, 389949720, 462311514, 450251217, 406030128, 450251226, 438190925, 438190927, 397989919,
     422110519, 406030118, 438190916, 406030110, 406030112]
  }

  lemma NasKeysMarked()
    ensures HasMarks(NasFields(), 0, 14, 0, 0, 0, NasMarks())
  {}

  function PerformanceMarks(): (r: seq<int>)
    ensures Distinct(r)
  {
    [466331616, 458291414, 466331614, 438190916, 470351715, 438190914, 478391914, 422110510, 406030122,
     397989917, 406030115, 422110511]
  }

  lemma PerformanceKeysMarked()
    ensures HasMarks(PerformanceFields(), 0, 12, 0, 0, 0, PerformanceMarks())
  {}

  function SecurityMarks(): (r: seq<int>)
    ensures Distinct(r)
  {
    [458291416, 4, 410050212, 406030117, 422110527, 406030108, 397989929, 434170809, 7, 466331610, 462311511, 450251210]
  }

  lemma SecurityKeysMarked0()
    ensures HasMarks(SecurityFields(), 0, 6, 7, 7, 7, SecurityMarks())
  {}

  lemma SecurityKeysMarked6()
    ensures HasMarks(SecurityFields(), 6, 12, 7, 7, 7, SecurityMarks())
  {}

  function TestMarks(): (r: seq<int>)
    ensures Distinct(r)
  {
    [406030112, 466331613, 458291411, 406030124, 406030119, 462311520, 462311523, 406030123, 466331610, 414070320, 406030115]
  }

  lemma TestKeysMarked()
    ensures HasMarks(TestFields(), 0, 11, 0, 0, 0, TestMarks())
  {}

  lemma GeneralNames0()
    ensures IsIdent("num_instances") && IsIdent("log_level") && IsIdent("verbose") && IsIdent("debug") && IsIdent("log_file") && IsIdent("enable_syslog")
  {}

  lemma GeneralNames1()
    ensures IsIdent("max_log_file_size") && IsIdent("log_file_count")
  {}

  lemma NetworkNames0()
    ensures IsIdent("gnb_ip") && IsIdent("gnb_ngap_port") && IsIdent("gnb_gtpu_port") && IsIdent("local_ip") && IsIdent("local_ngap_port")
  {}

  lemma NetworkNames1()
    ensures IsIdent("local_gtpu_port") && IsIdent("connection_timeout") && IsIdent("keepalive_interval")
  {}

  lemma NetworkNames2()
    ensures IsIdent("enable_ipv6") && IsIdent("max_connections")
  {}

  lemma UeNames0()
    ensures IsIdent("imsi_prefix") && IsIdent("imsi_start") && IsIdent("msisdn_prefix") && IsIdent("msisdn_start") && IsIdent("tac") && IsIdent("mcc") && IsIdent("mnc")
  {}

  lemma UeNames1()
    ensures IsIdent("imei") && IsIdent("random_imei") && IsIdent("apn") && IsIdent("apn_type")
  {}

  lemma RrcNames0()
    ensures IsIdent("registration_timeout") && IsIdent("establishment_timeout")
  {}

  lemma RrcNames1()
    ensures IsIdent("reestablishment_timeout") && IsIdent("handover_timeout") && IsIdent("enable_registration")
  {}

  lemma RrcNames2()
    ensures IsIdent("enable_establishment") && IsIdent("enable_reestablishment") && IsIdent("enable_handover")
  {}

  lemma RrcNames3()
    ensures IsIdent("max_retransmissions") && IsIdent("t300_value") && IsIdent("t301_value") && IsIdent("t302_value")
  {}

  lemma RrcNames4()
    ensures IsIdent("t304_value") && IsIdent("t310_value") && IsIdent("t311_value") && IsIdent("n310_value") && IsIdent("n311_value")
  {}

  lemma PdcpNames0()
    ensures IsIdent("max_pdu_size") && IsIdent("discard_timer") && IsIdent("status_report_timer")
  {}

  lemma PdcpNames1()
    ensures IsIdent("ciphering_algorithm") && IsIdent("integrity_algorithm") && IsIdent("enable_ciphering")
  {}

  lemma PdcpNames2()
    ensures IsIdent("enable_integrity") && IsIdent("max_retransmissions") && IsIdent("polling_pdu") && IsIdent("polling_byte")
  {}

  lemma RlcNames0()
    ensures IsIdent("am_window_size") && IsIdent("um_window_size") && IsIdent("poll_retransmit_timer")
  {}

  lemma RlcNames1()
    ensures IsIdent("reassembly_timer") && IsIdent("status_prohibit_timer") && IsIdent("max_retransmissions")
  {}

  lemma RlcNames2()
    ensures IsIdent("enable_arq") && IsIdent("buffer_size") && IsIdent("max_pdu_size") && IsIdent("enable_segmentation")
  {}

  lemma MacNames0()
    ensures IsIdent("harq_processes") && IsIdent("max_harq_retransmissions") && IsIdent("tti_length")
  {}

  lemma MacNames1()
    ensures IsIdent("rach_preambles") && IsIdent("rach_response_window") && IsIdent("max_rach_transmissions")
  {}

  lemma MacNames2()
    ensures IsIdent("scheduling_requests") && IsIdent("ul_grants") && IsIdent("dl_grants") && IsIdent("enable_harq")
  {}

  lemma MacNames3()
    ensures IsIdent("enable_rach") && IsIdent("tb_size") && IsIdent("mcs")
  {}

  lemma NasNames0()
    ensures IsIdent("registration_timer") && IsIdent("authentication_timer") && IsIdent("security_timer")
  {}

  lemma NasNames1()
    ensures IsIdent("pdu_session_timer") && IsIdent("enable_periodic_registration")
  {}

  lemma NasNames2()
    ensures IsIdent("periodic_registration_time") && IsIdent("max_registration_attempts")
  {}

  lemma NasNames3()
    ensures IsIdent("max_authentication_attempts") && IsIdent("ciphering_algorithm")
  {}

  lemma NasNames4()
    ensures IsIdent("integrity_algorithm") && IsIdent("enable_5g_features") && IsIdent("max_pdu_sessions")
  {}

  lemma NasNames5()
    ensures IsIdent("enable_sms") && IsIdent("enable_voice")
  {}

  lemma PerformanceNames0()
    ensures IsIdent("thread_pool_size") && IsIdent("rx_buffer_size") && IsIdent("tx_buffer_size")
  {}

  lemma PerformanceNames1()
    ensures IsIdent("memory_pool_size") && IsIdent("use_memory_pool") && IsIdent("max_queue_size")
  {}

  lemma PerformanceNames2()
    ensures IsIdent("worker_threads") && IsIdent("io_threads") && IsIdent("enable_thread_affinity")
  {}

  lemma PerformanceNames3()
    ensures IsIdent("cpu_affinity_mask") && IsIdent("enable_async_io") && IsIdent("io_priority")
  {}

  lemma SecurityNames0()
    ensures IsIdent("stack_protection") && IsIdent("aslr") && IsIdent("secure_flags") && IsIdent("enable_encryption")
  {}

  lemma SecurityNames1()
    ensures IsIdent("enable_integrity_protection") && IsIdent("key_file")
  {}

  lemma SecurityNames2()
    ensures IsIdent("enable_certificate_validation") && IsIdent("cert_file") && IsIdent("ca_file") && IsIdent("enable_tls")
  {}

  lemma SecurityNames3()
    ensures IsIdent("tls_version") && IsIdent("enable_pki")
  {}

  lemma TestNames0()
    ensures IsIdent("enable_tests") && IsIdent("test_duration") && IsIdent("report_file")
  {}

  lemma TestNames1()
    ensures IsIdent("enable_performance_tests") && IsIdent("enable_stress_tests")
  {}

  lemma TestNames2()
    ensures IsIdent("stress_test_duration") && IsIdent("stress_test_concurrency")
  {}

  lemma TestNames3()
    ensures IsIdent("enable_compliance_tests") && IsIdent("test_suite") && IsIdent("generate_test_report")
  {}

  lemma TestNames4()
    ensures IsIdent("enable_coverage")
  {}

  // --- the defaults ------------------------------------------------------------------------

  /** Letters, digits and the punctuation of paths and addresses. */
  predicate IsPathText(s: string) {
    && s != []
    && forall i :: 0 <= i < |s| ==> '.' <= s[i] <= '9' || 'a' <= s[i] <= 'z' || s[i] == '_'
  }

  /** A string the reader sends back to its member unchanged, or not at all. */
  predicate IsPlainText(s: string) {
    AllDigits(s) || (IsPathText(s) && !AllDigits(s) && s[0] != 't' && s[0] != 'f')
  }

  predicate PlainDefault(f: Field) {
    match f.default
    case B(_) => f.kind == Flag
    case N(n) => 0 <= n <= INT_MAX && (f.kind == Signed || f.kind == Unsigned)
    case S(s) => f.kind.Text? && |s| <= f.kind.cap <= 255 && IsPlainText(s)
  }

  lemma PlainNumberIsKept(f: Field, n: int, overflow: Overflow)
    requires f.default == N(n) && 0 <= n <= INT_MAX && (f.kind == Signed || f.kind == Unsigned)
    ensures Reload(f, N(n), overflow) == Some(N(n)) && '\n' !in Show(N(n))
  {
    DecimalIsPlain(n);
    NumberReloadsIff(f, n, overflow);
  }

  lemma PlainTextIsKept(f: Field, s: string, overflow: Overflow)
    requires f.default == S(s) && PlainDefault(f)
    ensures Reload(f, S(s), overflow) in {None, Some(S(s))} && '\n' !in s && '\0' !in s
  {
    if AllDigits(s) {
      DigitsStay(s);
    } else {
      WordSurvives(f, s, overflow);
      TextReloadsIff(f, s, overflow);
    }
  }

  /** A default of that form is restored by its own line, or left alone by it. */
  lemma PlainDefaultIsKept(f: Field, overflow: Overflow)
    requires IsIdent(f.key) && PlainDefault(f)
    ensures WellFormedField(f) && KeepsDefault(f, overflow)
  {
    match f.default
    case B(b) => FlagReloads(f, b, overflow);
    case N(n) => PlainNumberIsKept(f, n, overflow);
    case S(s) => PlainTextIsKept(f, s, overflow);
  }

  lemma DigitsStay(s: string)
    requires AllDigits(s)
    ensures GuessType(Trimmed(s)) == IsInt(s) && '\n' !in s && '\0' !in s
  {
    if s != [] {
      assert IsDigit(s[0]) && IsDigit(s[|s| - 1]);
      TrimmedIsIdentity(s);
      assert Lower(s)[0] == s[0];
    }
  }

  lemma WordSurvives(f: Field, s: string, overflow: Overflow)
    requires IsPathText(s) && !AllDigits(s) && s[0] != 't' && s[0] != 'f'
    ensures Survives(f, S(s), overflow) && '\0' !in s
  {
    assert Lower(s)[0] == s[0];
  }

  predicate PlainField(f: Field) {
    IsIdent(f.key) && PlainDefault(f) && ValidValue(f, f.default)
  }

  lemma PathTexts0()
    ensures IsPlainText("/var/log/uesim/uesim.log")
    ensures IsPlainText("127.0.0.1")
    ensures IsPlainText("0.0.0.0")
    ensures IsPlainText("00101")
    ensures IsPlainText("12345")
  {
    assert !IsDigit("/var/log/uesim/uesim.log"[0]);
    assert !IsDigit("127.0.0.1"[3]);
    assert !IsDigit("0.0.0.0"[1]);
  }

  lemma PathTexts1()
    ensures IsPlainText("001")
    ensures IsPlainText("01")
    ensures IsPlainText("")
    ensures IsPlainText("internet")
    ensures IsPlainText("default")
    ensures IsPlainText("/etc/uesim/keys.pem")
  {}

  lemma PathTexts2()
    ensures IsPlainText("/etc/uesim/cert.pem")
    ensures IsPlainText("/etc/uesim/ca.pem")
  {}

  lemma PathTexts3()
    ensures IsPlainText("/var/log/uesim/test_report.txt")
  {
    assert !IsDigit("/var/log/uesim/test_report.txt"[0]);
  }

  // --- the sections ------------------------------------------------------------------------

  lemma GeneralKeysAreIdents()
    ensures forall f :: f in GeneralFields() ==> IsIdent(f.key)
  {
    GeneralNames0();
    GeneralNames1();
  }

  lemma GeneralDefaultsArePlain()
    ensures forall f :: f in GeneralFields() ==> PlainDefault(f) && ValidValue(f, f.default)
  {
    PathTexts0();
  }

  lemma GeneralFieldsArePlain()
    ensures forall f :: f in GeneralFields() ==> PlainField(f)
  {
    GeneralKeysAreIdents();
    GeneralDefaultsArePlain();
  }

  lemma NetworkKeysAreIdents()
    ensures forall f :: f in NetworkFields() ==> IsIdent(f.key)
  {
    NetworkNames0();
    NetworkNames1();
    NetworkNames2();
  }

  lemma NetworkDefaultsArePlain()
    ensures forall f :: f in NetworkFields() ==> PlainDefault(f) && ValidValue(f, f.default)
  {
    PathTexts0();
  }

  lemma NetworkFieldsArePlain()
    ensures forall f :: f in NetworkFields() ==> PlainField(f)
  {
    NetworkKeysAreIdents();
    NetworkDefaultsArePlain();
  }

  lemma UeKeysAreIdents()
    ensures forall f :: f in UeFields() ==> IsIdent(f.key)
  {
    UeNames0();
    UeNames1();
  }

  lemma UeDefaultsArePlain()
    ensures forall f :: f in UeFields() ==> PlainDefault(f) && ValidValue(f, f.default)
  {
    PathTexts0();
    PathTexts1();
  }

  lemma UeFieldsArePlain()
    ensures forall f :: f in UeFields() ==> PlainField(f)
  {
    UeKeysAreIdents();
    UeDefaultsArePlain();
  }

  lemma RrcFieldsArePlain()
    ensures forall f :: f in RrcFields() ==> PlainField(f)
  {
    RrcNames0();
    RrcNames1();
    RrcNames2();
    RrcNames3();
    RrcNames4();
  }

  lemma PdcpFieldsArePlain()
    ensures forall f :: f in PdcpFields() ==> PlainField(f)
  {
    PdcpNames0();
    PdcpNames1();
    PdcpNames2();
  }

  lemma RlcFieldsArePlain()
    ensures forall f :: f in RlcFields() ==> PlainField(f)
  {
    RlcNames0();
    RlcNames1();
    RlcNames2();
  }

  lemma MacFieldsArePlain()
    ensures forall f :: f in MacFields() ==> PlainField(f)
  {
    MacNames0();
    MacNames1();
    MacNames2();
    MacNames3();
  }

  lemma NasFieldsArePlain()
    ensures forall f :: f in NasFields() ==> PlainField(f)
  {
    NasNames0();
    NasNames1();
    NasNames2();
    NasNames3();
    NasNames4();
    NasNames5();
  }

  lemma PerformanceFieldsArePlain()
    ensures forall f :: f in PerformanceFields() ==> PlainField(f)
  {
    PerformanceNames0();
    PerformanceNames1();
    PerformanceNames2();
    PerformanceNames3();
  }

  lemma SecurityKeysAreIdents()
    ensures forall f :: f in SecurityFields() ==> IsIdent(f.key)
  {
    SecurityNames0();
    SecurityNames1();
    SecurityNames2();
    SecurityNames3();
  }

  lemma SecurityDefaultsArePlain()
    ensures forall f :: f in SecurityFields() ==> PlainDefault(f) && ValidValue(f, f.default)
  {
    PathTexts1();
    PathTexts2();
  }

  lemma SecurityFieldsArePlain()
    ensures forall f :: f in SecurityFields() ==> PlainField(f)
  {
    SecurityKeysAreIdents();
    SecurityDefaultsArePlain();
  }

  lemma TestKeysAreIdents()
    ensures forall f :: f in TestFields() ==> IsIdent(f.key)
  {
    TestNames0();
    TestNames1();
    TestNames2();
    TestNames3();
    TestNames4();
  }

  lemma TestDefaultsArePlain()
    ensures forall f :: f in TestFields() ==> PlainDefault(f) && ValidValue(f, f.default)
  {
    PathTexts1();
    PathTexts3();
  }

  lemma TestFieldsArePlain()
    ensures forall f :: f in TestFields() ==> PlainField(f)
  {
    TestKeysAreIdents();
    TestDefaultsArePlain();
  }

  lemma SectionIsWellFormed(section: Section, p: nat, q: nat, r: nat, marks: seq<int>, overflow: Overflow)
    requires IsIdent(section.name) && forall f :: f in section.fields ==> PlainField(f)
    requires HasMarks(section.fields, 0, |section.fields|, p, q, r, marks) && Distinct(marks)
    ensures WellFormedSection(section) && forall f :: f in section.fields ==> KeepsDefault(f, overflow)
  {
    forall f | f in section.fields ensures WellFormedField(f) && KeepsDefault(f, overflow) {
      PlainDefaultIsKept(f, overflow);
    }
    forall i, j | 0 <= i < j < |section.fields| ensures section.fields[i].key != section.fields[j].key {
      assert marks[i] != marks[j];
    }
  }

  ghost predicate SectionOk(section: Section, overflow: Overflow) {
    WellFormedSection(section) && forall f :: f in section.fields ==> KeepsDefault(f, overflow)
  }

  lemma SectionNames()
    ensures IsIdent("general") && IsIdent("network") && IsIdent("ue") && IsIdent("rrc") && IsIdent("pdcp")
    ensures IsIdent("rlc") && IsIdent("mac") && IsIdent("nas") && IsIdent("performance")
  {}

  lemma MoreSectionNames()
    ensures IsIdent("security") && IsIdent("test")
  {}

  lemma GeneralIsOk(overflow: Overflow)
    ensures SectionOk(Section("general", GeneralFields()), overflow)
  {
    SectionNames();
    GeneralFieldsArePlain();
    GeneralKeysMarked();
    SectionIsWellFormed(Section("general", GeneralFields()), 0, 0, 0, GeneralMarks(), overflow);
  }

  lemma NetworkIsOk(overflow: Overflow)
    ensures SectionOk(Section("network", NetworkFields()), overflow)
  {
    SectionNames();
    NetworkFieldsArePlain();
    NetworkKeysMarked();
    SectionIsWellFormed(Section("network", NetworkFields()), 7, 7, 7, NetworkMarks(), overflow);
  }

  lemma UeIsOk(overflow: Overflow)
    ensures SectionOk(Section("ue", UeFields()), overflow)
  {
    SectionNames();
    UeFieldsArePlain();
    UeKeysMarked();
    SectionIsWellFormed(Section("ue", UeFields()), 1, 1, 1, UeMarks(), overflow);
  }

  lemma RrcIsOk(overflow: Overflow)
    ensures SectionOk(Section("rrc", RrcFields()), overflow)
  {
    SectionNames();
    RrcFieldsArePlain();
    RrcKeysMarked0();
    RrcKeysMarked3();
    RrcKeysMarked5();
    RrcKeysMarked7();
    RrcKeysMarked9();
    RrcKeysMarked12();
    RrcKeysMarked15();
    SectionIsWellFormed(Section("rrc", RrcFields()), 0, 2, 3, RrcMarks(), overflow);
  }

  lemma PdcpIsOk(overflow: Overflow)
    ensures SectionOk(Section("pdcp", PdcpFields()), overflow)
  {
    SectionNames();
    PdcpFieldsArePlain();
    PdcpKeysMarked();
    SectionIsWellFormed(Section("pdcp", PdcpFields()), 8, 8, 8, PdcpMarks(), overflow);
  }

  lemma RlcIsOk(overflow: Overflow)
    ensures SectionOk(Section("rlc", RlcFields()), overflow)
  {
    SectionNames();
    RlcFieldsArePlain();
    RlcKeysMarked();
    SectionIsWellFormed(Section("rlc", RlcFields()), 0, 0, 0, RlcMarks(), overflow);
  }

  lemma MacIsOk(overflow: Overflow)
    ensures SectionOk(Section("mac", MacFields()), overflow)
  {
    SectionNames();
    MacFieldsArePlain();
    MacKeysMarked0();
    MacKeysMarked4();
    MacKeysMarked8();
    SectionIsWellFormed(Section("mac", MacFields()), 0, 7, 7, MacMarks(), overflow);
  }

  lemma NasIsOk(overflow: Overflow)
    ensures SectionOk(Section("nas", NasFields()), overflow)
  {
    SectionNames();
    NasFieldsArePlain();
    NasKeysMarked();
    SectionIsWellFormed(Section("nas", NasFields()), 0, 0, 0, NasMarks(), overflow);
  }

  lemma PerformanceIsOk(overflow: Overflow)
    ensures SectionOk(Section("performance", PerformanceFields()), overflow)
  {
    SectionNames();
    PerformanceFieldsArePlain();
    PerformanceKeysMarked();
    SectionIsWellFormed(Section("performance", PerformanceFields()), 0, 0, 0, PerformanceMarks(), overflow);
  }

  lemma SecurityIsOk(overflow: Overflow)
    ensures SectionOk(Section("security", SecurityFields()), overflow)
  {
    MoreSectionNames();
    SecurityFieldsArePlain();
    SecurityKeysMarked0();
    SecurityKeysMarked6();
    SectionIsWellFormed(Section("security", SecurityFields()), 7, 7, 7, SecurityMarks(), overflow);
  }

  lemma TestIsOk(overflow: Overflow)
    ensures SectionOk(Section("test", TestFields()), overflow)
  {
    MoreSectionNames();
    TestFieldsArePlain();
    TestKeysMarked();
    SectionIsWellFormed(Section("test", TestFields()), 0, 0, 0, TestMarks(), overflow);
  }

  function SectionMarks(): (r: seq<int>)
    ensures Distinct(r)
  {
    [406030307, 406031007, 406031702, 458291403, 402011204, 434171403, 389950903, 389951003, 406031211, 406031508, 406031604]
  }

  lemma SectionsMarked()
    ensures var schema := UesimSchema();
            |schema| == |SectionMarks()| && forall k :: 0 <= k < |schema| ==> Mark(schema[k].name, 0, 1, 1) == SectionMarks()[k]
  {}

  lemma SectionsAreOk(overflow: Overflow)
    ensures forall k :: 0 <= k < |UesimSchema()| ==> SectionOk(UesimSchema()[k], overflow)
  {
    GeneralIsOk(overflow);
    NetworkIsOk(overflow);
    UeIsOk(overflow);
    RrcIsOk(overflow);
    PdcpIsOk(overflow);
    RlcIsOk(overflow);
    MacIsOk(overflow);
    NasIsOk(overflow);
    PerformanceIsOk(overflow);
    SecurityIsOk(overflow);
    TestIsOk(overflow);
  }

  lemma UesimIsWellFormed(overflow: Overflow)
    ensures WellFormed(UesimSchema(), overflow)
  {
    var schema := UesimSchema();
    SectionsAreOk(overflow);
    SectionsMarked();
    forall k | 0 <= k < |schema| ensures WellFormedSection(schema[k]) && forall f :: f in schema[k].fields ==> KeepsDefault(f, overflow) {
      assert SectionOk(schema[k], overflow);
    }
    forall j, k | 0 <= j < k < |schema| ensures schema[j].name != schema[k].name {
      assert SectionMarks()[j] != SectionMarks()[k];
    }
  }

}
