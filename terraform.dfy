/**
 * The compute-resource generator: one EC2 instance written as Terraform HCL.
 *
 * The document pins the AWS provider, configures it for the chosen region,
 * declares one `aws_instance` whose label is the sanitised instance name, and
 * outputs that instance's public IP through a reference that re-derives the
 * same label. Values are placed between double quotes as they are: nothing is
 * escaped, and a name starting with a digit keeps its digit.
 */
module Terraform {
  import opened Text

  /** The form's record; `provider` is shown in the form but never rendered. */
  datatype TerraformConfig = TerraformConfig(
    provider: string,
    region: string,
    instanceType: string,
    instanceName: string,
    ami: string,
    keyPair: string,
    securityGroup: string)

  /** The record the dialog opens with. */
  function DefaultConfig(): TerraformConfig
  {
    TerraformConfig("aws", "us-east-1", "t3.micro", "my-ec2-instance",
                    "ami-0c02fb55956c7d316", "", "default")
  }

  /** The characters `/[^a-zA-Z0-9]/` leaves alone. */
  predicate IsAlnum(ch: char)
  {
    ('a' <= ch <= 'z') || ('A' <= ch <= 'Z') || ('0' <= ch <= '9')
  }

  /** A character of a resource-label token. */
  predicate IsLabelChar(ch: char)
  {
    IsAlnum(ch) || ch == '_'
  }

  /** Every character is a letter, a digit or `_`. */
  predicate IsLabel(s: string)
  {
    forall i :: 0 <= i < |s| ==> IsLabelChar(s[i])
  }

  /**
   * `name.replace(/[^a-zA-Z0-9]/g, '_')`: the label derived from a display name.
   * It has the name's length, keeps every letter and digit in place and puts `_`
   * at every other position, so it is a label token.
   */
  function Sanitize(s: string): (r: string)
    ensures |r| == |s|
    ensures IsLabel(r)
    ensures forall i :: 0 <= i < |s| && IsAlnum(s[i]) ==> r[i] == s[i]
    ensures forall i :: 0 <= i < |s| && !IsAlnum(s[i]) ==> r[i] == '_'
    decreases |s|
  {
    if |s| == 0 then ""
    else [if IsAlnum(s[0]) then s[0] else '_'] + Sanitize(s[1..])
  }

  /** Sanitising twice is sanitising once. */
  lemma SanitizeIdempotent(s: string)
    ensures Sanitize(Sanitize(s)) == Sanitize(s)
  {
    var t := Sanitize(s);
    SanitizeFixesLabels(t);
  }

  /** The labels are exactly the strings sanitisation leaves unchanged. */
  lemma SanitizeFixesLabels(s: string)
    ensures Sanitize(s) == s <==> IsLabel(s)
  {
    var t := Sanitize(s);
    if IsLabel(s) {
      forall i | 0 <= i < |s| ensures t[i] == s[i] {
        if !IsAlnum(s[i]) { assert s[i] == '_'; }
      }
    }
  }

  /** Sanitisation is the character-wise replacement of every non-alphanumeric by `_`. */
  lemma SanitizeIsCharwise(s: string, want: string)
    requires |want| == |s|
    requires forall i :: 0 <= i < |s| ==> want[i] == if IsAlnum(s[i]) then s[i] else '_'
    ensures Sanitize(s) == want
  {
  }

  /** `My Server!!` becomes `My_Server__`. */
  lemma SanitizeExample()
    ensures Sanitize("My Server!!") == "My_Server__"
  {
    SanitizeIsCharwise("My Server!!", "My_Server__");
  }

  /** A leading digit is kept: the label is not forced to start with a letter. */
  lemma SanitizeKeepsLeadingDigit(s: string)
    requires |s| > 0 && '0' <= s[0] <= '9'
    ensures Sanitize(s)[0] == s[0]
  {
  }

  /** (a) The provider pin block and the blank line after it. */
  function RequiredProviders(): seq<string>
  {
    [ "terraform {",
      "  required_providers {",
      "    aws = {",
      "      source  = \"hashicorp/aws\"",
      "      version = \"~> 5.0\"",
      "    }",
      "  }",
      "}",
      "" ]
  }

  /** (b) The provider block, always for "aws", parameterised by the region. */
  function ProviderBlock(c: TerraformConfig): seq<string>
  {
    [ "provider \"aws\" {",
      "  region = \"" + c.region + "\"",
      "}",
      "" ]
  }

  /** (c) The one resource declaration, labelled by the sanitised instance name. */
  function ResourceBlock(c: TerraformConfig): seq<string>
  {
    [ "resource \"aws_instance\" \"" + Sanitize(c.instanceName) + "\" {",
      "  ami           = \"" + c.ami + "\"",
      "  instance_type = \"" + c.instanceType + "\"",
      "  key_name      = \"" + c.keyPair + "\"",
      "  ",
      "  vpc_security_group_ids = [\"" + c.securityGroup + "\"]",
      "  " ]
      + TagsBlock(c)
      + [ "}", "" ]
  }

  /** The fixed tag map, whose `Name` is the raw instance name. */
  function TagsBlock(c: TerraformConfig): seq<string>
  {
    [ "  tags = {",
      "    Name = \"" + c.instanceName + "\"",
      "    Environment = \"dev\"",
      "    ManagedBy = \"InfraGenie\"",
      "  }" ]
  }

  /** (d) The output block, which re-derives the label from the instance name. */
  function OutputBlock(c: TerraformConfig): seq<string>
  {
    [ "output \"instance_ip\" {",
      "  value = aws_instance." + Sanitize(c.instanceName) + ".public_ip",
      "}" ]
  }

  /** The document, line by line, as the template literal writes it. */
  function TerraformLines(c: TerraformConfig): seq<string>
  {
    RequiredProviders() + ProviderBlock(c) + ResourceBlock(c) + OutputBlock(c)
  }

  /** `generateTerraformCode`. */
  function GenerateTerraform(c: TerraformConfig): string
  {
    Unlines(TerraformLines(c))
  }

  /** The form's text inputs hold one line each. */
  predicate SingleLineFields(c: TerraformConfig)
  {
    && '\n' !in c.region && '\n' !in c.instanceType && '\n' !in c.instanceName
    && '\n' !in c.ami && '\n' !in c.keyPair && '\n' !in c.securityGroup
  }

  /** For single-line fields, the document's lines are the template's lines. */
  lemma TerraformDocumentLines(c: TerraformConfig)
    requires SingleLineFields(c)
    ensures Lines(GenerateTerraform(c)) == TerraformLines(c)
  {
    BlocksAreSingleLines(c);
    SingleLinesAppend(RequiredProviders(), ProviderBlock(c));
    SingleLinesAppend(RequiredProviders() + ProviderBlock(c), ResourceBlock(c));
    SingleLinesAppend(RequiredProviders() + ProviderBlock(c) + ResourceBlock(c), OutputBlock(c));
    LinesOfUnlines(TerraformLines(c));
  }

  lemma BlocksAreSingleLines(c: TerraformConfig)
    requires SingleLineFields(c)
    ensures SingleLines(RequiredProviders()) && SingleLines(ProviderBlock(c))
    ensures SingleLines(ResourceBlock(c)) && SingleLines(OutputBlock(c))
  {
    PreambleSingleLines();
    ProviderSingleLines(c);
    TagsSingleLines(c);
    ResourceHeadSingleLines(c);
    OutputSingleLines(c);
    var head := ResourceBlock(c)[..7];
    SingleLinesAppend(head, TagsBlock(c));
    SingleLinesAppend(head + TagsBlock(c), [ "}", "" ]);
    assert ResourceBlock(c) == head + TagsBlock(c) + [ "}", "" ];
  }

  lemma PreambleSingleLines()
    ensures SingleLines(RequiredProviders())
  {}

  lemma ProviderSingleLines(c: TerraformConfig)
    requires SingleLineFields(c)
    ensures SingleLines(ProviderBlock(c))
  {}

  lemma TagsSingleLines(c: TerraformConfig)
    requires SingleLineFields(c)
    ensures SingleLines(TagsBlock(c))
  {}

  lemma ResourceHeadSingleLines(c: TerraformConfig)
    requires SingleLineFields(c)
    ensures SingleLines(ResourceBlock(c)[..7])
  {
    var h := ResourceBlock(c)[..7];
    forall i | 0 <= i < 7 ensures '\n' !in h[i] {
      if i == 0 {
        assert '\n' !in "resource \"aws_instance\" \"" && '\n' !in "\" {";
      } else if i == 1 {
        assert '\n' !in "  ami           = \"" && '\n' !in "\"";
      } else if i == 2 {
        assert '\n' !in "  instance_type = \"";
      } else if i == 3 {
        assert '\n' !in "  key_name      = \"";
      } else if i == 5 {
        assert '\n' !in "  vpc_security_group_ids = [\"" && '\n' !in "\"]";
      }
    }
  }

  lemma OutputSingleLines(c: TerraformConfig)
    requires SingleLineFields(c)
    ensures SingleLines(OutputBlock(c))
  {}

  /**
   * Identifier consistency: reading the document back, the label declared by the
   * `resource` line and the label referenced by the `output` block are the same
   * token, the sanitised instance name.
   */
  lemma ResourceLabelMatchesReference(c: TerraformConfig)
    requires SingleLineFields(c)
    ensures FieldOf(Lines(GenerateTerraform(c)), ResourcePrefix, ResourceSuffix)
            == Some(Sanitize(c.instanceName))
    ensures FieldOf(Lines(GenerateTerraform(c)), OutputPrefix, OutputSuffix)
            == Some(Sanitize(c.instanceName))
  {
    TerraformDocumentLines(c);
    DeclaredLabel(c);
    ReferencedLabel(c);
  }

  const ResourcePrefix := "resource \"aws_instance\" \""
  const ResourceSuffix := "\" {"
  const OutputPrefix := "  value = aws_instance."
  const OutputSuffix := ".public_ip"

  /** The declaration is the first line of the resource block. */
  lemma DeclaredLabel(c: TerraformConfig)
    ensures FieldOf(TerraformLines(c), ResourcePrefix, ResourceSuffix) == Some(Sanitize(c.instanceName))
  {
    var pin, prov, res, out := RequiredProviders(), ProviderBlock(c), ResourceBlock(c), OutputBlock(c);
    HeaderHasNo(c, ResourcePrefix, ResourceSuffix, 0);
    FieldOfAt(res, 0, ResourcePrefix, Sanitize(c.instanceName), ResourceSuffix);
    FieldOfAppend(pin + prov, res, ResourcePrefix, ResourceSuffix);
    FieldOfAppend(pin + prov + res, out, ResourcePrefix, ResourceSuffix);
  }

  /** The reference is the second line of the output block. */
  lemma ReferencedLabel(c: TerraformConfig)
    ensures FieldOf(TerraformLines(c), OutputPrefix, OutputSuffix) == Some(Sanitize(c.instanceName))
  {
    var pin, prov, res, out := RequiredProviders(), ProviderBlock(c), ResourceBlock(c), OutputBlock(c);
    HeaderHasNo(c, OutputPrefix, OutputSuffix, 4);
    NoFieldIn(res, OutputPrefix, OutputSuffix, 4);
    FieldOfAppend(pin + prov, res, OutputPrefix, OutputSuffix);
    FieldOfAt(out, 1, OutputPrefix, Sanitize(c.instanceName), OutputSuffix);
    FieldOfAppend(pin + prov + res, out, OutputPrefix, OutputSuffix);
  }

  /** The two blocks before the resource hold no field of a shape they differ from at `k`. */
  lemma HeaderHasNo(c: TerraformConfig, prefix: string, suffix: string, k: nat)
    requires DiffersAt(RequiredProviders(), prefix, k) && DiffersAt(ProviderBlock(c), prefix, k)
    ensures FieldOf(RequiredProviders() + ProviderBlock(c), prefix, suffix) == None
  {
    NoFieldIn(RequiredProviders(), prefix, suffix, k);
    NoFieldIn(ProviderBlock(c), prefix, suffix, k);
    FieldOfAppend(RequiredProviders(), ProviderBlock(c), prefix, suffix);
  }

  /** A field on line `i` of the resource block, the first line of its shape. */
  lemma FieldInResource(c: TerraformConfig, i: nat, prefix: string, v: string, suffix: string, k: nat)
    requires DiffersAt(RequiredProviders(), prefix, k) && DiffersAt(ProviderBlock(c), prefix, k)
    requires i < |ResourceBlock(c)| && ResourceBlock(c)[i] == prefix + v + suffix
    requires DiffersAt(ResourceBlock(c)[..i], prefix, k)
    ensures FieldOf(TerraformLines(c), prefix, suffix) == Some(v)
  {
    var pin, prov, res, out := RequiredProviders(), ProviderBlock(c), ResourceBlock(c), OutputBlock(c);
    HeaderHasNo(c, prefix, suffix, k);
    FieldOfAtDiffering(res, i, prefix, v, suffix, k);
    FieldOfAppend(pin + prov, res, prefix, suffix);
    FieldOfAppend(pin + prov + res, out, prefix, suffix);
  }

  /** The `Name` tag carries the raw, unsanitised instance name. */
  lemma NameTagIsRawName(c: TerraformConfig)
    requires SingleLineFields(c)
    ensures FieldOf(Lines(GenerateTerraform(c)), "    Name = \"", "\"") == Some(c.instanceName)
  {
    TerraformDocumentLines(c);
    FieldInResource(c, 8, "    Name = \"", c.instanceName, "\"", 4);
  }

  /**
   * The region is placed between quotes exactly as entered: a quote inside it
   * is not escaped.
   */
  lemma RegionVerbatim(c: TerraformConfig)
    requires SingleLineFields(c)
    ensures FieldOf(Lines(GenerateTerraform(c)), "  region = \"", "\"") == Some(c.region)
  {
    TerraformDocumentLines(c);
    var pin, prov, res, out := RequiredProviders(), ProviderBlock(c), ResourceBlock(c), OutputBlock(c);
    RegionInHeader(c);
    FieldOfAppend(pin + prov, res, "  region = \"", "\"");
    FieldOfAppend(pin + prov + res, out, "  region = \"", "\"");
  }

  lemma RegionInHeader(c: TerraformConfig)
    ensures FieldOf(RequiredProviders() + ProviderBlock(c), "  region = \"", "\"") == Some(c.region)
  {
    NoRegionInPreamble();
    RegionInProviderBlock(c);
    FieldOfAppend(RequiredProviders(), ProviderBlock(c), "  region = \"", "\"");
  }

  lemma NoRegionInPreamble()
    ensures FieldOf(RequiredProviders(), "  region = \"", "\"") == None
  {
    NoFieldIn(RequiredProviders(), "  region = \"", "\"", 4);
  }

  lemma RegionInProviderBlock(c: TerraformConfig)
    ensures FieldOf(ProviderBlock(c), "  region = \"", "\"") == Some(c.region)
  {
    FieldOfAtDiffering(ProviderBlock(c), 1, "  region = \"", c.region, "\"", 4);
  }

  /**
   * The instance attributes are placed between quotes exactly as entered, and
   * the security group is a one-element list.
   */
  lemma AttributesVerbatim(c: TerraformConfig)
    requires SingleLineFields(c)
    ensures FieldOf(Lines(GenerateTerraform(c)), "  ami           = \"", "\"") == Some(c.ami)
    ensures FieldOf(Lines(GenerateTerraform(c)), "  instance_type = \"", "\"") == Some(c.instanceType)
    ensures FieldOf(Lines(GenerateTerraform(c)), "  key_name      = \"", "\"") == Some(c.keyPair)
    ensures FieldOf(Lines(GenerateTerraform(c)), "  vpc_security_group_ids = [", "]")
            == Some("\"" + c.securityGroup + "\"")
  {
    TerraformDocumentLines(c);
    AmiField(c);
    InstanceTypeField(c);
    KeyNameField(c);
    SecurityGroupsField(c);
  }

  lemma AmiField(c: TerraformConfig)
    ensures FieldOf(TerraformLines(c), "  ami           = \"", "\"") == Some(c.ami)
  {
    FieldInResource(c, 1, "  ami           = \"", c.ami, "\"", 2);
  }

  lemma InstanceTypeField(c: TerraformConfig)
    ensures FieldOf(TerraformLines(c), "  instance_type = \"", "\"") == Some(c.instanceType)
  {
    FieldInResource(c, 2, "  instance_type = \"", c.instanceType, "\"", 2);
  }

  lemma KeyNameField(c: TerraformConfig)
    ensures FieldOf(TerraformLines(c), "  key_name      = \"", "\"") == Some(c.keyPair)
  {
    FieldInResource(c, 3, "  key_name      = \"", c.keyPair, "\"", 2);
  }

  lemma SecurityGroupsField(c: TerraformConfig)
    ensures FieldOf(TerraformLines(c), "  vpc_security_group_ids = [", "]") == Some("\"" + c.securityGroup + "\"")
  {
    FieldInResource(c, 5, "  vpc_security_group_ids = [", "\"" + c.securityGroup + "\"", "]", 2);
  }

  /** The provider field does not influence the document: the provider is always "aws". */
  lemma ProviderIgnored(c: TerraformConfig, p: string)
    ensures GenerateTerraform(c.(provider := p)) == GenerateTerraform(c)
  {
  }
}
