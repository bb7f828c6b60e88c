/** The three ARN layouts the collectors write, each read as its six
    colon-separated fields. */
module Arn {
  import opened Py

  /** `arn:aws:s3:::<id>`: no region, no account. */
  lemma S3Fields(id: string)
    ensures "arn:aws:s3:::" + id == Join(":", ["arn", "aws", "s3", "", "", id])
  {
    JoinSix(":", "arn", "aws", "s3", "", "", id);
    assert "arn" + ":" + "aws" + ":" + "s3" + ":" + "" + ":" + "" + ":" + id == "arn:aws:s3:::" + id;
  }

  /** `arn:aws:iam::<account>:<type>/<id>`: no region. */
  lemma IamFields(account: string, resourceType: string, id: string)
    ensures "arn:aws:iam::" + account + ":" + resourceType + "/" + id
      == Join(":", ["arn", "aws", "iam", "", account, resourceType + "/" + id])
  {
    JoinSix(":", "arn", "aws", "iam", "", account, resourceType + "/" + id);
    assert "arn" + ":" + "aws" + ":" + "iam" + ":" + "" + ":" == "arn:aws:iam::";
  }

  /** `arn:aws:<service>:<region>:<account>:<type>/<id>` */
  lemma RegionalFields(service: string, region: string, account: string, resourceType: string, id: string)
    ensures "arn:aws:" + service + ":" + region + ":" + account + ":" + resourceType + "/" + id
      == Join(":", ["arn", "aws", service, region, account, resourceType + "/" + id])
  {
    JoinSix(":", "arn", "aws", service, region, account, resourceType + "/" + id);
    assert "arn" + ":" + "aws" + ":" == "arn:aws:";
  }

  /** The EC2 layout is the regional one with the service `ec2`. */
  lemma Ec2Fields(region: string, account: string, resourceType: string, id: string)
    ensures "arn:aws:ec2:" + region + ":" + account + ":" + resourceType + "/" + id
      == Join(":", ["arn", "aws", "ec2", region, account, resourceType + "/" + id])
  {
    RegionalFields("ec2", region, account, resourceType, id);
    assert "arn:aws:" + "ec2" + ":" == "arn:aws:ec2:";
  }
}
