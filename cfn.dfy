/** The small part of the CloudFormation value language the engine writes:
    literal strings and the intrinsic functions Ref, Fn::GetAtt, Fn::Join and
    Fn::Sub, as the resource library's cfn.Ref, cfn.GetAtt, cfn.Join and
    cfn.Sub helpers produce them. */
module Cfn {

  datatype Option<+T> = None | Some(value: T)

  datatype Value =
    | Lit(s: string)
    | Ref(target: string)
    | GetAtt(resource: string, attribute: string)
    | Join(delimiter: string, items: seq<Value>)
    | Sub(template: string)

  /** Logical names and pseudo parameters the engine refers to by name. */
  const StackName := "AWS::StackName"
  const Region := "AWS::Region"
}
