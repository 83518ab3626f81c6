/**
 * The literal texts the effort calculator hands out: the business-value
 * points (common and per source kind), and the risks and recommendations
 * (baseline, per source kind, and the extras for a High estimate).
 */
module EffortTexts {

  // Business value: the seven Snowflake benefits shared by every source kind.
  const CommonBenefits: seq<string> := [
    "Enhanced Scalability & Performance: Independently scale compute and storage for optimal performance with any data volume, potentially reducing query times by X-Y% for key workloads.",
    "Simplified Data Management: Consolidate data, streamline administration, and improve data governance, possibly reducing DBA overhead by Z hours/month.",
    "Faster Analytics & Insights: Accelerate data-driven decisions with high-performance SQL queries, enabling new analytical use cases previously unfeasible.",
    "Direct Cost Savings (TCO): Potential for lower Total Cost of Ownership through pay-per-second compute and separate competitive storage pricing. Estimate potential savings of A-B% annually compared to current infrastructure/licensing.",
    "Optimized Resource Usage: Eliminate over-provisioning with precise resource allocation, reducing compute and storage wastage, potentially reclaiming C-D% of current spend.",
    "Seamless Data Sharing: Securely share live data internally and externally without ETL, fostering collaboration and new data monetization opportunities.",
    "Reduced Operational Overhead: Fully managed SaaS minimizes administrative tasks (patching, upgrades, backups), freeing up IT resources for value-added activities, contributing to E-F% operational cost reduction."
  ]

  // Business value: three source-specific points per recognised kind, two generic ones otherwise.
  const OracleBenefits: seq<string> := [
    "Significant reduction in licensing costs: Transition from Oracle's expensive proprietary licenses (potentially saving G-H% of annual Oracle spend) and complex audit processes.",
    "Move away from complex and costly Oracle-specific features like RAC towards Snowflake's simpler, elastic architecture, reducing specialized skill dependency.",
    "Improved agility and faster time-to-market for new data initiatives by leveraging Snowflake's cloud-native capabilities and CI/CD-friendly environment."
  ]
  const SqlServerBenefits: seq<string> := [
    "Eliminate SQL Server licensing costs (especially for Enterprise features) and reduce dependency on Microsoft-specific ecosystem, leading to I-J% license cost savings.",
    "Transition from potentially restrictive on-premises hardware to Snowflake's flexible cloud infrastructure, reducing capital expenditure (CapEx).",
    "Gain access to broader data integration and analytics capabilities beyond the traditional SQL Server stack, supporting modern data science and ML workloads."
  ]
  const PostgresBenefits: seq<string> := [
    "Achieve higher levels of scalability and concurrency often challenging with self-managed or even some managed PostgreSQL instances, supporting K-L times more concurrent users/queries.",
    "Reduce operational burden of managing, tuning, vacuuming, and upgrading PostgreSQL databases, potentially saving M-N hours/week of specialized DBA time.",
    "Leverage Snowflake's robust security and governance features (e.g., dynamic data masking, row-level security out-of-the-box) which may require more manual setup or commercial extensions in PostgreSQL, potentially reducing compliance costs by O-P%."
  ]
  const TeradataBenefits: seq<string> := [
    "Modernize from a legacy, often expensive, Teradata appliance to a flexible cloud-native architecture, avoiding costly hardware refresh cycles (saving Q-R $M).",
    "Significant cost savings by moving away from Teradata's hardware and software licensing model, potentially reducing annual spend by S-T%.",
    "Improve data democratizaion and support for diverse workloads (Data Engineering, Data Science, Ad-hoc analysis) beyond traditional BI, unlocking new revenue streams or operational efficiencies of U-V%."
  ]
  const DatabricksBenefits: seq<string> := [
    "Simplify data warehousing and BI workloads with Snowflake's optimized SQL engine and user-friendly interface for analysts, potentially improving analyst productivity by W-X%.",
    "Potentially reduce TCO by consolidating data lake and data warehouse capabilities within Snowflake where appropriate, leveraging its storage and compute pricing models, potentially saving Y-Z% on specific workloads.",
    "Benefit from Snowflake's strong governance, security (e.g., granular access controls, end-to-end encryption), and data sharing features for structured and semi-structured data, simplifying compliance."
  ]
  const SnowflakeBenefits: seq<string> := [
    "Consolidate multiple Snowflake accounts for better cost management (e.g., volume discounts, optimized warehouse usage) and centralized governance, potentially reducing overall Snowflake spend by AA-BB%.",
    "Optimize existing Snowflake workloads by re-evaluating warehouse sizing, query performance, and data clustering strategies, improving cost-efficiency by CC-DD% for targeted query patterns.",
    "Leverage latest Snowflake features (e.g., Snowpark, Unistore, Native Apps) and best practices for enhanced performance and new capabilities in the target account."
  ]
  const GenericBenefits: seq<string> := [
    "Modernize your data stack by moving from a potentially end-of-life or unsupported legacy system to a leading cloud data platform, reducing risk and improving access to innovation.",
    "Improve data accessibility and self-service capabilities for business users, potentially reducing report generation time by EE-FF%."
  ]

  // Risks: five for every source, three per recognised kind, three more for a High estimate.
  const BaselineRisks: seq<string> := [
    "Data loss during migration",
    "Potential downtime during cutover",
    "Performance impact during migration",
    "Data type compatibility issues",
    "Function and procedure syntax differences"
  ]
  const OracleRisks: seq<string> := [
    "PL/SQL to Snowflake SQL conversion complexity",
    "Oracle-specific features (e.g., AQ, Spatial) may not have direct equivalents",
    "Sequence and identity column handling differences"
  ]
  const SqlServerRisks: seq<string> := [
    "T-SQL to Snowflake SQL conversion complexity",
    "SQL Server-specific features (e.g., linked servers, Service Broker) may not have direct equivalents",
    "Identity column and sequence handling differences"
  ]
  const PostgresRisks: seq<string> := [
    "PostgreSQL-specific data types (e.g., PostGIS) may need complex conversion or workarounds",
    "PL/pgSQL to Snowflake SQL/JavaScript UDF conversion",
    "Extension and custom function compatibility and rewrite effort"
  ]
  const TeradataRisks: seq<string> := [
    "BTEQ/TPT script conversion to SnowSQL/Python scripts or ETL tools.",
    "Teradata-specific SQL extensions and utilities (e.g., FastLoad, MultiLoad) require redesign.",
    "Handling of Teradata-specific data types and indexing strategies (e.g., PPI)."
  ]
  const DatabricksRisks: seq<string> := [
    "Converting Delta Lake specific features (e.g., time travel, MERGE on Delta) to Snowflake equivalents.",
    "Rewriting Spark SQL/Python/Scala UDFs and jobs for Snowflake (SQL, Snowpark, or external compute).",
    "Managing data consistency and schema evolution differences between Delta Lake and Snowflake tables."
  ]
  const HighComplexityRisks: seq<string> := [
    "Extended migration timeline and higher resource allocation",
    "Increased complexity in data validation and reconciliation",
    "More intricate rollback procedures and contingency planning"
  ]

  // Recommendations: laid out exactly like the risks.
  const BaselineRecommendations: seq<string> := [
    "Create comprehensive backup of source data before migration begins.",
    "Implement a dedicated testing environment for thorough migration validation.",
    "Document all custom functions, procedures, and complex business logic from the source.",
    "Plan for an adequate downtime window for the final cutover, or explore phased migration.",
    "Develop and test a detailed rollback plan in case of critical issues."
  ]
  const OracleRecommendations: seq<string> := [
    "Utilize schema conversion tools and thoroughly review Oracle-specific features for Snowflake compatibility.",
    "Focus on PL/SQL to Snowflake SQL/JavaScript UDF conversion strategy and testing.",
    "Address sequence generation and identity column behavior early in the planning phase."
  ]
  const SqlServerRecommendations: seq<string> := [
    "Analyze T-SQL code for constructs that need rewriting for Snowflake SQL.",
    "Plan for handling SQL Server Agent jobs and SSIS packages, potentially migrating to Snowflake tasks or other ETL tools.",
    "Document and test identity column and sequence migration strategies."
  ]
  const PostgresRecommendations: seq<string> := [
    "Carefully map PostgreSQL data types and extensions to Snowflake equivalents or alternatives.",
    "Develop a strategy for converting PL/pgSQL functions and procedures.",
    "Assess and plan for migration of custom functions and any heavily used PostgreSQL extensions."
  ]
  const TeradataRecommendations: seq<string> := [
    "Plan for Teradata script (BTEQ, FastLoad, etc.) conversion or replacement with Snowflake-compatible tools.",
    "Analyze Teradata SQL for proprietary features and plan for rewrite.",
    "Develop a data migration strategy focusing on efficient export from Teradata and import into Snowflake (e.g., using Snowpipe or COPY command)."
  ]
  const DatabricksRecommendations: seq<string> := [
    "Identify and plan for migrating Delta Lake table features and optimizations to Snowflake.",
    "Assess Spark jobs for logic that can be translated to Snowpark or Snowflake SQL, or determine if external processing is still needed.",
    "Define a strategy for data extraction from Delta Lake (e.g., Parquet export) and ingestion into Snowflake."
  ]
  const HighComplexityRecommendations: seq<string> := [
    "Strongly consider a phased migration approach, starting with less critical workloads.",
    "Implement comprehensive automated testing and data validation suites.",
    "Establish clear communication channels and a dedicated migration team for complex projects."
  ]
}
