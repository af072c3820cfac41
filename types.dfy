/**
 * The data model shared by the compliance checker and the conversation
 * analyzer (packages/acip-dialogue/src/types/index.ts), and the role filter
 * both of them apply to a conversation.
 */
module Types {

  datatype Option<+T> = None | Some(value: T)

  datatype MessageRole = User | Assistant | System

  /** One turn of a conversation. The optional `timestamp` and `metadata`
      of the source are never read by the analysis and are not modelled. */
  datatype ConversationMessage = ConversationMessage(role: MessageRole, content: string)

  /** Order is significant: it encodes turn-taking. */
  type Conversation = seq<ConversationMessage>

  // ---------------------------------------------------------------------------
  // Compliance reports
  // ---------------------------------------------------------------------------

  datatype ProtocolLayer = TrustTransparency | EmotionalBoundary | Collaboration | Ethics | Privacy

  datatype Severity = Info | Warning | Error

  /** `messageIndex` indexes the role-filtered sub-sequence the reporting
      checker scans, not the raw conversation. */
  datatype ComplianceIssue = ComplianceIssue(
    layer: ProtocolLayer,
    severity: Severity,
    message: string,
    messageIndex: Option<nat>,
    suggestion: Option<string>)

  datatype LayerReport = LayerReport(score: real, issues: seq<ComplianceIssue>, suggestions: seq<string>)

  /** `timestamp` is the report's creation time, supplied by the caller. */
  datatype ComplianceReport = ComplianceReport(
    compliant: bool,
    score: real,
    layers: map<ProtocolLayer, LayerReport>,
    issues: seq<ComplianceIssue>,
    timestamp: int)

  // ---------------------------------------------------------------------------
  // Conversation analysis
  // ---------------------------------------------------------------------------

  datatype FrequencyPattern = Normal | Elevated | Concerning

  datatype EmotionalIntensity = Appropriate | Elevated | Concerning

  datatype DependencyRiskLevel = Low | Moderate | High | Critical

  datatype DependencyIndicators = DependencyIndicators(
    frequencyPattern: FrequencyPattern,
    emotionalIntensity: EmotionalIntensity,
    isolationLanguage: bool,
    romanticLanguage: bool,
    anxietyAboutAI: bool,
    riskLevel: DependencyRiskLevel)

  datatype SensitiveDataCategory =
    Health | Financial | Biometric | Political | Religious | Sexual | PersonalIdentity

  /** Offsets are local to the content of the message the match was found in. */
  datatype SensitiveLocation = SensitiveLocation(start: nat, end: nat, category: SensitiveDataCategory)

  datatype SensitiveDataDetection = SensitiveDataDetection(
    detected: bool,
    categories: seq<SensitiveDataCategory>,
    locations: seq<SensitiveLocation>)

  datatype EthicalCategory = Harm | Deception | Illegal | Exploitation | PrivacyViolation | Manipulation

  datatype ConcernSeverity = Low | Medium | High | Critical

  datatype EthicalConcern = EthicalConcern(
    category: EthicalCategory,
    severity: ConcernSeverity,
    description: string,
    recommendation: string)

  /** `patternType` is the source's `type` field, a free-form string. */
  datatype ConversationPattern = ConversationPattern(patternType: string, frequency: nat, examples: seq<string>)

  datatype QualityMetrics = QualityMetrics(
    identityDisclosureRate: real,
    uncertaintyExpressionRate: real,
    boundaryMaintenanceRate: real,
    helpfulnessEstimate: real)

  datatype MessagesByRole = MessagesByRole(user: nat, assistant: nat, system: nat)

  datatype ConversationAnalysis = ConversationAnalysis(
    messageCount: nat,
    messagesByRole: MessagesByRole,
    patterns: seq<ConversationPattern>,
    dependencyRisk: DependencyIndicators,
    sensitiveData: SensitiveDataDetection,
    ethicalConcerns: seq<EthicalConcern>,
    quality: QualityMetrics)

  // ---------------------------------------------------------------------------
  // Role filter: `conversation.filter((m) => m.role === role)`
  // ---------------------------------------------------------------------------

  function WithRole(conv: Conversation, role: MessageRole): (r: Conversation)
    ensures |r| <= |conv|
    ensures forall k :: 0 <= k < |r| ==> r[k].role == role
    ensures forall m :: m in r <==> m in conv && m.role == role
  {
    if |conv| == 0 then []
    else
      var last := conv[|conv| - 1];
      assert conv == conv[..|conv| - 1] + [last];
      WithRole(conv[..|conv| - 1], role) + (if last.role == role then [last] else [])
  }

  /** Filtering a prefix one message longer adds at most that message. */
  lemma WithRolePrefixStep(conv: Conversation, n: nat, role: MessageRole)
    requires n < |conv|
    ensures WithRole(conv[..n + 1], role)
         == WithRole(conv[..n], role) + (if conv[n].role == role then [conv[n]] else [])
  {
    assert conv[..n + 1][..n] == conv[..n];
  }

  /** Filtering a prefix gives a prefix of the filtered whole. */
  lemma {:induction false} WithRolePrefixGrows(conv: Conversation, n: nat, role: MessageRole)
    requires n <= |conv|
    ensures WithRole(conv[..n], role) <= WithRole(conv, role)
    decreases |conv| - n
  {
    if n < |conv| {
      WithRolePrefixStep(conv, n, role);
      WithRolePrefixGrows(conv, n + 1, role);
    } else {
      assert conv[..n] == conv;
    }
  }

  /** The three role filters partition the conversation. */
  lemma {:induction false} RoleCountsPartition(conv: Conversation)
    ensures |WithRole(conv, User)| + |WithRole(conv, Assistant)| + |WithRole(conv, System)| == |conv|
  {
    if |conv| > 0 {
      RoleCountsPartition(conv[..|conv| - 1]);
    }
  }

  // ---------------------------------------------------------------------------
  // `some` over message contents
  // ---------------------------------------------------------------------------

  /** `messages.some((m) => matches(m.content))`, where `matches` is one
      pattern test or a whole list of them (`patterns.some((p) => p.test(s))`). */
  predicate AnyMatch(messages: Conversation, matches: string -> bool)
    decreases |messages|
  {
    |messages| > 0
    && (AnyMatch(messages[..|messages| - 1], matches) || matches(messages[|messages| - 1].content))
  }

  /** `some` holds exactly when one of the messages matches. */
  lemma {:induction false} AnyMatchExists(messages: Conversation, matches: string -> bool)
    ensures AnyMatch(messages, matches) <==> exists k :: 0 <= k < |messages| && matches(messages[k].content)
    decreases |messages|
  {
    if |messages| > 0 {
      var n := |messages| - 1;
      AnyMatchExists(messages[..n], matches);
      if AnyMatch(messages[..n], matches) {
        var k :| 0 <= k < n && matches(messages[..n][k].content);
        assert messages[k] == messages[..n][k];
      }
      if k :| 0 <= k < n && matches(messages[k].content) {
        assert messages[..n][k] == messages[k];
      }
    }
  }
}
